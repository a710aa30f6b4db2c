# Verified models of the sharing daemon

Dafny models of the parts of the daemon that decide something: the Quick Share protocol stack,
the bandwidth-upgrade handover, the consent exchange, the binary plist and DNS codecs, the
block-framed archive container, the transfer slot and the discovered-peer table. Each model
follows the branches, constants and error cases of the code it cites, and the properties proved
are those a maintainer relies on: that the layers compose, that two machines agree, that what
is written is read back, that hostile input is bounded. Nothing was executed: everything here
is a statement about the models, checked by the verifier.

`dafny verify dfyconfig.toml` checks the whole project.

## How the models are laid out

- `Bytes`, `Utf8`: machine integers with their widths, big-endian integers, UTF-8 and UTF-16
  with the lossy decoders of the standard library.
- `Protobuf`, `Framing`, `SecureMessage`, `Channel`, `Frames`, `Payload`, `Sharing`: one module
  a layer. Functions say what bytes mean; classes with the source's own fields (`Writer`,
  `Reader`, `Decoder`, `SecureChannel`, `Assembler`) are proved against them.
- `Schedule`, `EndToEnd`, `Session`: payloads cut into chunks, interleaved, sealed and fragmented,
  the receiver that undoes all of it, and one peer sending to another from end to end.
- `Consent`, `Settlement`: the receiver and sender machines, one of them against an arbitrary
  peer, and the two of them over a pair of queues of real frames; what they settle on.
- `Upgrade`, `Handover`: the negotiation frames, and the host and joiner machines over four
  independent FIFO wires.
- `PlistWriter`, `PlistReader`, `PlistRoundTrip`; `Dns`; `Mdns`; `Framed`; `Hkdf`.
- `TransferSlot`: the atomics of `TransferState` as one step each, with threads interleaving
  freely, and the object itself.

Cryptography is a record of functions (`SecureMessage.Crypto`); the only facts used about it are
that decryption inverts encryption and, where a network is hostile, that a message carries bytes
with their own HMAC under the key only if those bytes were sent. HMAC in `Hkdf` and zlib in `Framed` are
parameters in the same way. Clocks, randomness and sockets are parameters: a random source is
the value it gave, a clock is a number passed in, a socket is how much it hands over at a time.

Where a property that would be expected does not hold of the code, the exact condition under
which it does is proved, beside a run or an input that breaks it:

- `Handover.Outcome`: an offer that carries neither Wi-Fi nor LAN leaves the host waiting for
  good, so the two sides agree exactly when the offer is usable.
- `Handover.LastWriteExactly`: a joiner that moves is sure to have sent its LAST_WRITE exactly
  when the host promised no ack (or offered no way to move). `Handover.MovedWithoutLastWrite` is a
  run in which it does not, and `Handover.ClosedBeforeLastWrite` one in which it is never read.
- `TransferSlot.LostExactlyWhenTaken`: a live holder is the current transfer unless its claim was
  freed by a reclaim, an outside call or its own explicit one. Where finishing is left to guards and
  reclaims, `TransferSlot.LostOnlyToStaleRead` traces the loss to a stale clock reading. In
  `TransferSlot.TwoHolders` that reading is of the transfer before, whose clock is cleared after its claim.
- `Channel.AcceptsExactlyInTurn`: a frame is accepted exactly at its own turn modulo 2^32, so after
  that many frames an old one is accepted again (`Channel.ReplayAcceptedAfterWrap`).
- `PlistRoundTrip.RoundTrip`: a tree comes back exactly within three limits, one of which is
  that the writer's length objects hold four bytes (`PlistRoundTrip.LongDataIsCut`).
- `Dns.NameRoundTrip`: a name comes back as it was exactly when it has at most 255 bytes and
  either is the root or has no label that is empty or of 192 bytes or more.
- `Dns.QueryRoundTrip`: a query asks what it was built for exactly when the service is such a name and
  not the root; an empty label would end the name, and the type be read from what follows.
- `Dns.NsecRdata`: its block is one the standard allows exactly when there is a type and every
  type is below 256; for no types it is the one zero octet the standard forbids.
- `TransferSlot.TakesAnyones`: the radio hold and the activity clock are not tagged, and are taken
  exactly when a finish of any id gets to them; in `TransferSlot.HoldTakenByAnother` the late drop
  of a finished transfer's guard takes both from the one that is live and current.
- `Hkdf.Expand`: the counter byte wraps exactly when more than 254 blocks are asked for and given.
- `Upgrade.WrappedTwice`: a frame wrapped twice reads as an offer, whatever it was.

## Model

| member | source | states |
|---|---|---|
| Utf8.LossyRoundTrip | protocol/src/frames.rs:693-695 | valid text survives the lossy decoder, whatever its scalar values |
| Protobuf.ReadVarintRoundTrip | protocol/src/protobuf.rs:57-128 | every u64 reads back from at most ten bytes, with whatever follows left unread |
| Protobuf.FieldsRoundTrip | protocol/src/protobuf.rs:52-180 | the reader returns exactly the list of varint and length-delimited fields the writer wrote |
| Protobuf.ItemsRoundTrip | protocol/src/protobuf.rs:144-180 | the same with fixed-width fields of any content among them, which are stepped over |
| Protobuf.ScansSeeLastWrite | protocol/src/protobuf.rs:185-209 | skipped fields do not change what either scan finds |
| Protobuf.LastBytesIsLast | protocol/src/protobuf.rs:185-196 | the scan's value is the last occurrence, and it finds nothing only when there is none |
| Protobuf.Writer.PutVarint | protocol/src/protobuf.rs:57-63 | the shift loop appends exactly the encoding |
| Protobuf.Writer.PutBytesField | protocol/src/protobuf.rs:78-83 | tag, length and bytes are appended, and nothing else changes |
| Protobuf.Reader.ReadVarintField | protocol/src/protobuf.rs:108-128 | the shift loop reads what the bytes mean, overflow past ten bytes and truncation included |
| Protobuf.Reader.Take | protocol/src/protobuf.rs:130-140 | takes exactly n bytes, or refuses and does not move |
| Protobuf.Reader.Next | protocol/src/protobuf.rs:144-180 | one field, the end or the first error, with fixed-width fields skipped |
| Protobuf.ScanBytes | protocol/src/protobuf.rs:185-196 | the scanning loop finds the last occurrence |
| Protobuf.ScanVarint | protocol/src/protobuf.rs:198-209 | the scanning loop finds the last occurrence |
| Framing.Decoder.PushBytes | protocol/src/framing.rs:70-72 | the buffer grows by the bytes |
| Framing.Decoder.NextFrame | protocol/src/framing.rs:78-96 | one frame off the front, or nothing, or a refusal that consumes nothing |
| Framing.DrainRoundTrip | protocol/src/framing.rs:48-96 | a stream of encodings drains to exactly the frames, with nothing left over |
| Framing.FragmentationIrrelevant | protocol/src/framing.rs:64-96 | draining after every arrival gives the frames of the whole, for every way of cutting it |
| Framing.RunConserves | protocol/src/framing.rs:64-96 | after any calls, encodings of what was returned followed by the buffer are what was pushed |
| Framing.RefusalIsFinal | protocol/src/framing.rs:78-96 | once an oversize prefix is at the front no later call of any kind returns another frame |
| SecureMessage.GateRoundTrip | protocol/src/securemessage.rs:152-222 | a sealed message passes the signature gate, and what passes is the signed bytes |
| SecureMessage.GateExactly | protocol/src/securemessage.rs:199-222 | what passes the gate is exactly what carries its own HMAC under the key |
| SecureMessage.WrongSignature | protocol/src/securemessage.rs:199-222 | a body under any other signature is refused for its signature |
| SecureMessage.OpenExactly | protocol/src/securemessage.rs:224-248 | signed bytes open exactly when they name both schemes, decrypt, and hold a message under a number |
| SecureMessage.SealRoundTrip | protocol/src/securemessage.rs:152-248 | opening a sealed message gives its sequence number and payload |
| SecureMessage.HeaderRead | protocol/src/securemessage.rs:120-180 | the header written names its schemes, IV, and message type and version by their numbers |
| Channel.SecureChannel.Encrypt | protocol/src/channel.rs:72-84 | the counter advances even when sealing fails, and the frame carries the new number |
| Channel.SecureChannel.Decrypt | protocol/src/channel.rs:86-101 | accepts the next number only, and any rejection leaves the counter alone |
| Channel.AcceptsExactlyInTurn | protocol/src/channel.rs:86-101 | a message that carries a genuine frame under its HMAC is accepted at its own turn and refused at every other |
| Channel.ForgeryRejected | protocol/src/channel.rs:86-101 | a message without the HMAC of what it carries is refused and leaves the counter alone |
| Channel.DirectionsMeet | protocol/src/d2d.rs:83-97 | each role reads with the keys the other writes with |
| Channel.OrderedDelivery | protocol/src/channel.rs:72-101 | under drops, repeats, reordering and forgeries the accepted payloads are at every moment a prefix of those sent |
| Channel.InOrderAccepted | protocol/src/channel.rs:72-101 | a frame delivered at its turn is accepted |
| Channel.ReplayAcceptedAfterWrap | protocol/src/channel.rs:72-101 | 2^32 frames later the same frame is accepted again, which is why the bound above is there |
| Frames.PayloadDataRoundTrip | protocol/src/frames.rs:470-691 | every data frame is read back as the same header and chunk |
| Frames.PayloadControlRoundTrip | protocol/src/frames.rs:496-691 | a control frame keeps id, kind, size, event and offset, and loses the rest of the header |
| Frames.RequestRoundTrip | protocol/src/frames.rs:404-617 | a connection request survives, mediums in order and absent timers absent |
| Frames.ResponseRoundTrip | protocol/src/frames.rs:451-646 | a connection response reads back as the same answer and system |
| Frames.LegacyStatusIsUnderstood | protocol/src/frames.rs:619-646 | without the newer field, status zero is an acceptance and any other a rejection |
| Frames.OldPeerHears | protocol/src/frames.rs:451-468 | the status field of our own response, read alone, says the same answer |
| Frames.UpgradeRoundTrip | protocol/src/frames.rs:516-529 | the envelope gives back the negotiation body |
| Frames.KeepAliveRoundTrip | protocol/src/frames.rs:531-582 | a keep-alive keeps its flag and number |
| Frames.DisconnectionRoundTrip | protocol/src/frames.rs:546-590 | both flags survive, written only when set |
| Frames.ScanEnvelope | protocol/src/frames.rs:560-597 | the loop finds the last frame type and the last body |
| Frames.ScanRequest | protocol/src/frames.rs:600-617 | the field-by-field loop gives the request the fields mean |
| Payload.Assembler.AcceptFrame | protocol/src/payload.rs:125-220 | one frame against the in-flight table, with every refusal and removal |
| Payload.Assembler.Cancel | protocol/src/payload.rs:223-225 | the payload, and no other, is forgotten |
| Payload.AcceptKept | protocol/src/payload.rs:125-220 | every frame from anyone keeps at most 32 entries, each within its size limits |
| Payload.MemoryBound | protocol/src/payload.rs:28-43 | buffered bytes never exceed 32 times 1 MiB |
| Payload.LifetimeTiles | protocol/src/payload.rs:125-220 | over any frames, the pieces of one payload lifetime tile from zero with no gap or overlap |
| Payload.EveryReport | protocol/src/payload.rs:125-220 | a file chunk reported starts where its lifetime ends; a BYTES report is exactly the concatenation |
| Payload.EveryAnswer | protocol/src/payload.rs:125-220 | after any history the answer to a data frame: each refusal exactly where the pieces received so far and the header that opened the payload call for it, or what the chunk completes; no other payload changes |
| Payload.ControlAnswered | protocol/src/payload.rs:125-138 | after any history a peer's control frame, as written, reports a cancellation for event 2 and a failure for any other, forgets its payload and no other |
| Payload.Independence | protocol/src/payload.rs:35-220 | while the cap is not hit, each payload sees what it would see alone |
| Schedule.NeverCapped | protocol/src/payload.rs:125-220 | an interleaving of at most 32 payloads at a time never meets the cap |
| Schedule.EveryReplyExpected | protocol/src/payload.rs:125-220 | each frame of such an interleaving draws the reply its own payload would draw alone |
| Schedule.EveryPayloadWhole | protocol/src/payload.rs:125-220 | what is delivered for a payload is exactly its body |
| Schedule.FinishesOnce | protocol/src/payload.rs:125-220 | every payload is finished by one frame, and only one |
| EndToEnd.WholeStack | protocol/src/end_to_end.rs:39-307 | any payloads, chunking, interleaving and fragmentation: the receiver never stops, its sharing frames are the BYTES payloads in the order they finish, and every payload arrives whole |
| EndToEnd.WholeStackReplies | protocol/src/end_to_end.rs:88-116 | frame by frame, what comes out is what the frame's own payload calls for |
| EndToEnd.FileIsWellCut | protocol/src/end_to_end.rs:59-85 | the file loop cuts a non-empty file into chunks the theorem covers, for every positive chunk size |
| EndToEnd.SharingIsWellCut | protocol/src/end_to_end.rs:41-56 | so does a sharing frame |
| EndToEnd.Peer.SendSharing | protocol/src/end_to_end.rs:41-56 | the wire bytes of one sharing frame, under a fresh payload id |
| EndToEnd.Peer.SendFile | protocol/src/end_to_end.rs:59-85 | the wire bytes of the whole chunking loop |
| EndToEnd.Peer.Receive | protocol/src/end_to_end.rs:88-116 | the receiving loop, stopping where the source unwraps an error |
| Session.OrdersInterleave | protocol/src/end_to_end.rs:39-116 | any list of sending calls under distinct payload ids is one of the interleavings above, and its replies are each frame whole and each file chunk in its place |
| Session.CarryAll | protocol/src/end_to_end.rs:39-85 | the wires of the calls, end to end, are exactly the sealed frames of that interleaving |
| Session.Take | protocol/src/end_to_end.rs:88-116 | one receiving call for each piece is the receiving of them all |
| Session.Exchange | protocol/src/end_to_end.rs:182-307 | one peer sending to another over a wire cut anyhow: everything arrives in order, nothing stops, no byte is held back |
| Schedule.Then | protocol/src/payload.rs:125-220 | a payload sent whole after an interleaving makes an interleaving again |
| Sharing.IntroductionRoundTrip | protocol/src/sharing.rs:301-482 | every introduction survives: files and texts in order, with every field |
| Sharing.ResponseRoundTrip | protocol/src/sharing.rs:352-434 | every status survives |
| Sharing.VerdictRoundTrip | protocol/src/sharing.rs:381-434 | every paired-key verdict survives |
| Sharing.PairedKeyRoundTrip | protocol/src/sharing.rs:363-434 | both byte strings survive |
| Sharing.CancelRoundTrip | protocol/src/sharing.rs:388-434 | a cancel frame, which has no body, is read as one |
| Sharing.ScanIntroduction | protocol/src/sharing.rs:436-451 | the loop accumulates attachments and stops at the first bad field or entry |
| Consent.Inbound.Start | protocol/src/fsm.rs:144-156 | one paired-key frame, once |
| Consent.Inbound.On | protocol/src/fsm.rs:158-196 | every event in every state of the receiver |
| Consent.Inbound.OnFrame | protocol/src/fsm.rs:198-262 | every frame in every state of the receiver |
| Consent.Outbound.Start | protocol/src/fsm.rs:300-318 | the three opening frames, once |
| Consent.Outbound.On | protocol/src/fsm.rs:320-342 | every event in every state of the sender |
| Consent.Outbound.OnFrame | protocol/src/fsm.rs:344-374 | every frame in every state of the sender |
| Consent.NothingWithoutConsent | protocol/src/fsm.rs:158-267 | against any peer: asked at most once, begun at most once and for what was asked, one ending |
| Consent.OnlyAcceptanceBegins | protocol/src/fsm.rs:158-181 | receiving begins only on the person's acceptance, while waiting for it, of what was on screen |
| Consent.RankNeverFalls | protocol/src/fsm.rs:103-267 | the state never goes back, and once over nothing is changed, emitted or sent, whatever arrives |
| Consent.ReceiverTells | protocol/src/fsm.rs:144-262 | all the receiver's caller is told, whatever comes: the question, to begin for what was asked, one ending that says which |
| Consent.SenderTells | protocol/src/fsm.rs:300-374 | all the sender's caller is told: to begin what was offered, one ending that says which |
| Consent.StartedOnce | protocol/src/fsm.rs:144-318 | however a start went and whatever has happened since, starting again does nothing |
| Consent.InEnds | protocol/src/fsm.rs:158-262 | which event in which state ends the receiver, how, and for which reason it gives up |
| Consent.OutEnds | protocol/src/fsm.rs:320-374 | the same of the sender, and when sending begins |
| Consent.NeitherFails | protocol/src/fsm.rs:144-373 | two honest machines never fail each other, whatever the queues' timing, and every frame in flight can be read |
| Consent.SendingAfterConsent | protocol/src/fsm.rs:300-360 | sending begins only after the receiver's person accepted and the receiver began, for the same introduction |
| Settlement.Settled | protocol/src/fsm.rs:144-374 | in a run nobody calls off, once all that was said has been heard: undecided, the receiver waits for its person with the sender's introduction; accepted, both are transferring or done; refused, both are done |
| Settlement.CalmRunsEnd | protocol/src/fsm.rs:144-374 | every such run is over within eleven steps |
| Settlement.CalmOutcome | protocol/src/fsm.rs:144-374 | one that can go no further has been decided, and both machines are done |
| Settlement.SettledOrEnded | protocol/src/fsm.rs:144-374 | any run, called off or not, once all that was said has been heard: both over if either called it off, else as the person decided |
| Settlement.EveryOutcome | protocol/src/fsm.rs:144-374 | every run that can go no further ends with both machines over and neither failed |
| Settlement.CallingOff | protocol/src/fsm.rs:158-166 | a side that calls off is cancelled by that step, and the last frame it sends is one the peer reads as a cancel |
| Upgrade.PathAvailableRoundTrip | protocol/src/upgrade.rs:252-371 | every offer survives both layers: credentials in either layout, socket, flags |
| Upgrade.PathRequestRoundTrip | protocol/src/upgrade.rs:280-341 | a request gives back each known medium asked for as often as it was, ascending |
| Upgrade.RequestTellsRoles | protocol/src/upgrade.rs:303-341 | a request that names Wi-Fi Direct carries both group roles and the password authentication three messages down, any other nothing there |
| Upgrade.PackMediums | protocol/src/upgrade.rs:288-301 | the packing loop writes the varints one after another |
| Upgrade.UnpackMediums | protocol/src/upgrade.rs:426-450 | the unpacking loop stops at the first varint that does not end and drops unknown mediums |
| Upgrade.ClientIntroductionRoundTrip | protocol/src/upgrade.rs:374-382 | the endpoint id survives |
| Upgrade.SafeToCloseRoundTrip | protocol/src/upgrade.rs:400-407 | every frequency hint survives, negative ones included |
| Upgrade.BareRoundTrips | protocol/src/upgrade.rs:385-413 | the three frames without content are told apart |
| Upgrade.WrappedTwice | protocol/src/upgrade.rs:225-250 | wrapping a finished frame again is not refused and reads as an offer with nothing in it |
| Handover.Host.On | protocol/src/upgrade.rs:630-675 | every event in every state of the host |
| Handover.Joiner.On | protocol/src/upgrade.rs:708-778 | every event in every state of the joiner |
| Handover.Agreement | protocol/src/upgrade.rs:605-784 | never one side moved and the other given up; a moved host was introduced to over the new channel by a joiner that connected |
| Handover.ClosesAfterRelease | protocol/src/upgrade.rs:650-760 | neither side closes the old channel before it has the other's release; the joiner's was an answer to the host's last write, the host's was sent as it moved |
| Handover.AfterRelease | protocol/src/upgrade.rs:630-765 | the host writes nothing on the old channel after its release; the joiner does exactly when the ack comes while it still waits for it, after the host's last write, and then it is one LAST_WRITE |
| Handover.Told | protocol/src/upgrade.rs:625-778 | all that each caller is told besides frames to send, over every run: to join over the host's path, to close and to move once each, or to give up |
| Handover.ToldInTurn | protocol/src/upgrade.rs:625-778 | each is told in the very step its machine gets there and in no other; a connection is reported only by a joiner told to join |
| Handover.SilentOnceClosed | protocol/src/upgrade.rs:650-765 | told to close, a side sends nothing on the old channel again |
| Handover.HostHeeds | protocol/src/upgrade.rs:630-675 | against any peer: which frame on which channel moves the host, what it is told for it, and that nothing else does |
| Handover.JoinerHeeds | protocol/src/upgrade.rs:708-778 | the same of the joiner, and which offers it joins |
| Handover.ClosedBeforeLastWrite | protocol/src/upgrade.rs:650-765 | for every offer that is usable and promises an ack, a run in which the host closes with that LAST_WRITE unread |
| Handover.RunsEnd | protocol/src/upgrade.rs:605-784 | every run is over within nine steps |
| Handover.Outcome | protocol/src/upgrade.rs:605-784 | where every run that can go no further ends, for both ack settings and every overtaking |
| Handover.LastWriteExactly | protocol/src/upgrade.rs:708-765 | a joiner that moves has always said LAST_WRITE, over every run, exactly when no ack was promised or there was no way to move |
| Handover.MovedWithoutLastWrite | protocol/src/upgrade.rs:708-765 | for every other offer, a run in which both sides move without the LAST_WRITE or the ack |
| PlistWriter.Numbering.Add | sharingd/src/plist.rs:102-125 | the slot-reserving walk numbers the tree from its root, container before children |
| PlistWriter.EncodePlist | sharingd/src/plist.rs:37-86 | the second pass writes every object, the offsets it found them at and the trailer |
| PlistWriter.WidthIsLeast | sharingd/src/plist.rs:175-185 | references and offsets are written in the least of 1, 2, 4 and 8 octets that holds them |
| PlistReader.Parser.ReadObject | sharingd/src/plist.rs:347-436 | the recursive reader with both budgets spent as it goes |
| PlistReader.ParsePlist | sharingd/src/plist.rs:271-306 | trailer checks, then the root |
| PlistReader.ParseBounded | sharingd/src/plist.rs:221-436 | any bytes at all: at most 100000 values, 16 levels, and text and data within eight times the input or 256 KiB |
| PlistReader.OpensExactly | sharingd/src/plist.rs:271-306 | which trailers open a document and which do not, by their numbers |
| PlistReader.IntegersRead | sharingd/src/plist.rs:370-375 | integers of one to eight octets give the number they spell, negative ones of eight |
| PlistReader.RefusedUnread | sharingd/src/plist.rs:338-356 | below the sixteenth level, past the budget or outside the table, an object is refused |
| PlistReader.TooWideRefused | sharingd/src/plist.rs:402-433 | so is a container of more than 4096 |
| PlistReader.CycleRefused | sharingd/src/plist.rs:271-436 | a document from whose root a cycle of references can be reached is refused, whatever arrays and dictionaries the way there and the cycle go through, by items, by keys or by values under text keys |
| PlistReader.LoopRefused | sharingd/src/plist.rs:329-436 | no object on such a cycle is read, at any depth and with any budgets |
| PlistReader.SelfReferenceRefused | sharingd/src/plist.rs:329-406 | so an array that refers to itself is refused at every depth |
| PlistReader.First | sharingd/src/plist.rs:208-215 | a lookup finds the first entry under a key, and nothing only when there is none |
| PlistRoundTrip.EveryTreeReturns | sharingd/src/plist.rs:37-436 | every tree of at most 4096 objects, 16 levels and lengths under 2^32 comes back with order and duplicate keys kept, and always fits in memory |
| PlistRoundTrip.RoundTrip | sharingd/src/plist.rs:37-436 | and those three limits are exactly when, for every tree whose document fits in memory: texts, keys and data at any depth included |
| PlistRoundTrip.ObjectWritable | sharingd/src/plist.rs:140-436 | a subtree that reads back as it was, under any budgets, holds no length of 2^32 or more |
| PlistRoundTrip.PayloadCost | sharingd/src/plist.rs:156-166 | text and data cost at most twice the bytes they are written in, so no budget refuses the writer's output |
| PlistRoundTrip.HoldsBack | sharingd/src/plist.rs:37-185 | every object stands where the table says, and offsets and references fit their widths |
| PlistRoundTrip.LongDataIsCut | sharingd/src/plist.rs:140-153 | what becomes of one such length: a document that is 2^32 bytes of data or more comes back as that many bytes modulo 2^32 |
| Dns.NameIsExpansion | sharingd/src/dns.rs:64-110 | a name is read exactly when it has an expansion as in section 4.1.4 of RFC 1035 within the bounds, and it is that one; the position stays inside the buffer |
| Dns.ExpansionUnique | sharingd/src/dns.rs:64-110 | a name has at most one expansion |
| Dns.Reader.ReadName | sharingd/src/dns.rs:64-110 | the jumping loop ends on every buffer and leaves the position after the name in place |
| Dns.ParsePacket | sharingd/src/dns.rs:141-181 | counts, questions and records in order, with every bound |
| Dns.NameRoundTrip | sharingd/src/dns.rs:64-196 | exactly which names come back as they were, of all that are valid text |
| Dns.ResponseRoundTrip | sharingd/src/dns.rs:200-226 | at most 128 records read back in order with the place of their data; more are refused |
| Dns.PacketRoundTrip | sharingd/src/dns.rs:141-181 | a packet of all four sections of section 4.1 of RFC 1035 reads back as its questions and then its records, in order; more than 64 or 128 are refused |
| Dns.QueryRoundTrip | sharingd/src/dns.rs:287-304 | exactly which services are asked for by the query that names them |
| Dns.WriteQuery | sharingd/src/dns.rs:287-304 | the label loop of a query, empty labels included |
| Dns.ResponseOctets | sharingd/src/dns.rs:214-226 | the response's twelve header octets: authoritative answer, no question |
| Dns.QueryOctets | sharingd/src/dns.rs:287-304 | the query's header octets, type, and class with its unicast bit |
| Dns.RecordOctets | sharingd/src/dns.rs:200-211 | the ten octets behind a record's name, with its cache-flush bit |
| Dns.WriteResponse | sharingd/src/dns.rs:214-226 | the header and the answers, one after another |
| Dns.WriteName | sharingd/src/dns.rs:186-196 | the label loop |
| Dns.Bitmap | sharingd/src/dns.rs:241-247 | the bitmap filled in place has exactly the bits of the types given |
| Dns.NsecRdata | sharingd/src/dns.rs:239-252 | the next name, window 0, the length's low byte and the bitmap; one block section 4.1.2 of RFC 4034 allows (1 to 32 octets behind their number, none zero at the end) exactly when there is a type and every type is below 256; the forbidden zero octet when there is none |
| TransferSlot.TransferState.TryBegin | sharingd/src/main.rs:442-471 | uninterrupted, the method is its steps run to the end |
| TransferSlot.TransferState.Finish | sharingd/src/main.rs:604-637 | uninterrupted, the method is its steps run to the end, draining first |
| TransferSlot.TransferState.DrainArmed | sharingd/src/main.rs:680-709 | looks again only while something is unacknowledged and patience lasts, and not at all for another transfer's socket |
| TransferSlot.AloneSteps | sharingd/src/main.rs:442-471 | a thread that meets nobody is refused exactly when a transfer is running that is not stale |
| TransferSlot.Exclusive | sharingd/src/main.rs:415-471 | under every interleaving no id is claimed twice, none over an unreleased claim, and the unreleased one is current |
| TransferSlot.NothingLeft | sharingd/src/main.rs:415-859 | once every call has returned and every guard has dropped, both claims are free, the socket slot empty, the radio released and the clock stopped; a descriptor still parked is a client's answer for a transfer over or not begun |
| TransferSlot.ReleasesOnlyItsOwn | sharingd/src/main.rs:442-637 | a step frees another id's claims only while releasing that id, and reclaims only on a stale clock |
| TransferSlot.LostExactlyWhenTaken | sharingd/src/main.rs:415-637 | over every interleaving a thread from claim to drop is the current transfer, unless its id was freed while current by a reclaimer, an outside caller or its own explicit call; and it is freed exactly then |
| TransferSlot.OneUntaken | sharingd/src/main.rs:415-637 | of two threads live at once, one has had its claim taken so |
| TransferSlot.SoleHolder | sharingd/src/main.rs:415-637 | where nobody reclaims and finishing is left to the guards, a live thread is current and the only one |
| TransferSlot.ReclaimerReadStale | sharingd/src/main.rs:442-502 | a thread that reclaims an id has itself found it current and then read the clock stale |
| TransferSlot.ClockMeans | sharingd/src/main.rs:473-480 | over every interleaving the clock holds an hour exactly when the last step that wrote it was a touch at that hour |
| TransferSlot.ReclaimsExactlyWhenLapsed | sharingd/src/main.rs:442-492 | a begin that found the slot taken reclaims it exactly when the last touch is more than 180 s old and no finish has ended since; otherwise it is refused |
| TransferSlot.RefusedWhileBusy | sharingd/src/main.rs:442-492 | while a current transfer has been touched within 180 s, nobody who comes gets in, for as long as that lasts |
| TransferSlot.RefusedAlone | sharingd/src/main.rs:442-492 | alone, such a begin is refused and changes nothing |
| TransferSlot.LostOnlyToStaleRead | sharingd/src/main.rs:415-637 | where every finish is a guard's or a reclaim, a claim is lost only to such a reading |
| TransferSlot.TwoHolders | sharingd/src/main.rs:442-637 | an interleaving in which two calls have succeeded and both threads hold a guard |
| TransferSlot.TakesAnyones | sharingd/src/main.rs:604-637 | a step takes the radio hold or the clock exactly when it is that step of a finish, of whatever id |
| TransferSlot.SlotsChange | sharingd/src/main.rs:604-895 | over every action: who writes the parked descriptor, the armed socket and the radio hold, and who takes from them |
| TransferSlot.HoldTakenByAnother | sharingd/src/main.rs:426-637 | a run in which a finished transfer's guard, dropped late, takes the live and current transfer's radio hold and clock |
| Mdns.Browser.Absorb | sharingd/src/mdns.rs:581-691 | each record type's effect on the table |
| Mdns.AnnouncementListed | sharingd/src/mdns.rs:301-691 | bytes and all: whatever was listed, an announcement lists its sender under its host, port, address and lease, and nobody else changes but who claims the same host |
| Mdns.OwnEchoIgnored | sharingd/src/mdns.rs:264-691 | our own announcement coming back adds nobody |
| Mdns.GoodbyeHonoured | sharingd/src/mdns.rs:190-774 | a device that says goodbye is gone from the first expiry a second later, whatever the gate |
| Mdns.Browser.SetProbeEviction | sharingd/src/mdns.rs:521-536 | the gate's clock starts when it opens |
| Mdns.Browser.Expire | sharingd/src/mdns.rs:731-774 | the three reasons a peer is dropped |
| Mdns.LeaseMeans | sharingd/src/mdns.rs:695-711 | a goodbye is one second, any other lease what was said between 30 s and 300 s |
| Mdns.SignOfLife | sharingd/src/mdns.rs:581-711 | what one record does to one listed peer: which records speak of it, what they renew, and that the others leave it alone |
| Mdns.AskingCounts | sharingd/src/mdns.rs:436-490 | which questions count as asked in vain, of whom, and up to what number |
| Mdns.DroppedExactly | sharingd/src/mdns.rs:731-774 | who is dropped by an expiry and who not, to the millisecond |
| Mdns.NoLongLease | sharingd/src/mdns.rs:581-711 | no lease ends more than 300 s past the peer's last word; behind a closed gate the peer may be listed for longer |
| Mdns.RipeMeans | sharingd/src/mdns.rs:521-541 | the gate counts as ripe exactly when it has been open without a break for 60 s |
| Mdns.RemovedForCause | sharingd/src/mdns.rs:731-774 | expiry removes only peers that said goodbye (section 10.1 of RFC 6762), or behind a gate open for 60 s |
| Mdns.SilentIsRemoved | sharingd/src/mdns.rs:731-774 | a peer silent for 300 s behind such a gate does not survive the next expiry |
| Framed.Source.ReadFull | sharingd/src/framed.rs:103-114 | all that is asked or all that is left, however the source splits or interrupts it, or the source's own failure |
| Framed.BlockMeans | sharingd/src/framed.rs:52-85 | a block by the number in its header: stored or deflated, its length, what ends the stream and what is an error |
| Framed.FramedReader.Read | sharingd/src/framed.rs:52-101 | what is still to come out is conserved by every read, and an error is the stream's or the source's |
| Framed.ReadAll | sharingd/src/framed.rs:87-101 | the output depends on the stream alone, not on buffer sizes; where the source fails it is the front of that |
| Framed.FramedWriter.Write | sharingd/src/framed.rs:153-190 | what has been framed and what is held depend on the concatenation alone |
| Framed.ContainerRoundTrip | sharingd/src/framed.rs:52-190 | what the writer made decodes to what was written |
| Framed.TruncationPrefix | sharingd/src/framed.rs:52-85 | a stream cut anywhere decodes to the front of the whole decoding |
| Framed.ThroughBoth | sharingd/src/framed.rs:52-190 | any pieces in, any pieces out, the same bytes, unless the source fails |
| Hkdf.Expand | protocol/src/hkdf.rs:67-86 | the loop returns the first bytes of T(1), T(2) and so on of section 2.3 of RFC 5869, or fails exactly when HMAC does for a block it needs; when its counter wraps |
| Hkdf.Derive | protocol/src/hkdf.rs:88-92 | the same from the extracted key, or the failure of the extraction |
| Hkdf.NoSaltIsZeros | protocol/src/hkdf.rs:55-65 | section 2.2 of RFC 5869: an absent salt is 32 zero octets, any other is itself |
| Hkdf.ShorterIsPrefix | protocol/src/hkdf.rs:67-86 | where a longer output is given so is every shorter one, as its front |

## Left out

- Kernel, radio, property, binder and socket code, the AirDrop HTTPS server, UKEY2, BLE and PIN code: device behaviour, or fixed-layout code beside the codecs above.
- The insides of AES, HMAC, SHA and zlib: functions with the facts stated above. Padding and block sizes are theirs.
- Messages of 2^64 bytes or more: round trips assume a message fits in memory.
- Protobuf.Reader: where the cursor stands after an error is not stated; every caller stops there.
- EndToEnd.WholeStack: a sharing frame is delivered as its bytes; that those bytes parse is Sharing's round trips. Payloads without chunks are not covered; Session.Exchange has empty files among its orders, for which the source sends no frame.
- Framed.FramedWriter.Write: a sink that fails is not modelled.
- EndToEnd.Peer.SendFile: a chunk size of zero is excluded, with which the source's loop never ends on a non-empty file.
- Payload.LifetimeTiles: stated up to 2^63 - 1 bytes, past which the source's received count saturates.
- Consent.NeitherFails: both machines are started before they hear anything and the random source works, as the callers see to; an introduction must announce something.
- Handover.Agreement: the caller reports once after it is told to join, and frames already sent are delivered; the upgrade request frame and a host told it could not join are not part of the runs.
- Dns.NameIsExpansion: length bytes of 0x40 to 0xBF, which RFC 1035 reserves, are read by the source as labels, and so they are here.
- Mdns.AnnouncementListed: the TXT and NSEC data of an announcement are any data at all; TXT encoding and the choice of which questions to answer are not modelled.
- TransferSlot.Exclusive: ids do not wrap at 2^63, draining may last any time rather than the source's bound, and a holder that never drops its guard is only ever reclaimed.
- TransferSlot.NothingLeft: the answer and PIN slots, the group request and the cancelled flag are not part of the state; of the slots a client may write, it is the one for a parked descriptor.
- Mdns.NoLongLease: one clock reading serves each record, where the source takes two a moment apart; the BLE label of a peer is not modelled.
- Logging, device names, MIME guessing and measured timing constants.

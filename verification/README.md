# Gjallarhorn, modelled and proved

Gjallarhorn is a chat system over a mix network. Clients have conversations, each of which sends one
fixed-size message per round, retransmitting what the peer has not acknowledged. A coordinator collects
the clients' onions, a chain of mixers decrypts, filters, shuffles and adds noise, and the last mixer
exchanges the messages that meet in a dead drop. The replies travel back into the slots they came from.

The project follows one round from end to end, and the protocols around it:

- **Conversations** (`Conversation.dfy`, `Receiving.dfy`, `Composing.dfy`, `ConvoWire.dfy`, `Ratchet.dfy`): the
  conversation object with its queue, receiver and key ratchet, what any order of arrival comes to, the 240-byte
  body, and the agreement on a past round.
- **Delivery** (`Delivery.dfy`, `BoundedDelivery.dfy`, `Overlap.dfy`, `InFlight.dfy`, `Redelivery.dfy`,
  `MixedDelivery.dfy`, `MixedExample.dfy`): two such conversations over a network that loses, delays, reorders
  and repeats, with restarts; safety over every run, progress without losses, one round at a time or several in
  flight, and the mix network as such a lossless network.
- **Mix chain** (`Onions.dfy`, `MixRound.dfy`, `MixServer.dfy`, `MixBatch.dfy`, `Spans.dfy`,
  `ChainRouting.dfy`, `CloseBarrier.dfy`, `RoundSetup.dfy`): setting up a round, filling slots from concurrent
  streams, closing, filtering, shuffling, recursion and sealing; nothing is lost on the way in, noise included,
  and reply i belongs to onion i.
- **Dead drops** (`DeadDrop.dfy`, `AccessCounts.dfy`, `Noise.dfy`, `Shuffles.dfy`, `EndToEnd.dfy`): the
  exchange against its declarative pairing, its counters, and the cover traffic.
- **Codec** (`Varints.dfy`, `Wire.dfy`, `Messages.dfy`, `MessageLayout.dfy`, `Codec.dfy`, `CodecMessages.dfy`):
  the generated Protocol Buffers code, following the sections "Base 128 Varints", "Message Structure" and
  "Last One Wins" of the Protocol Buffers Encoding guide.
- **Coordinator** (`Scheduler.dfy`, `Coordinator.dfy`, `Batching.dfy`, `Restarts.dfy`): flights, deadlines, the
  cut-off, the batch, and the saved round counter.
- **Client slots** (`ClientSlots.dfy`, `SlotAlignment.dfy`): the five slots, the onion keys, and the whole way
  from a slot back into it.

Code that changes objects and buffers is modelled by classes, arrays and loops, each proved equal to a
function; the laws are proved about the functions. Concurrent parts are state machines whose results hold
for every order of their steps. Where a promise of the source is false in general, a lemma says exactly
when it holds. Lemmas carry `{:induction false}`: every induction is written out.

Verify with `dafny verify dfyconfig.toml --resource-limit 2000000 --verification-time-limit 0`.

## Model

| member | source | states |
|---|---|---|
| Delivery.InOrderExactlyOnce | cmd/gjallarhorn-client/conversation.go:193-345 | Over every interleaving of queueing, composing and handling at two peers, with answers lost, delayed, reordered or repeated, the displayed texts are a prefix of the queued ones and a text leaves `outQueue` only after the peer displayed it (no client restarts) |
| Delivery.SafeAcrossRestarts | cmd/gjallarhorn-client/conversation.go:193-345 | The same with any restarts of either side: between two restarts of the receiver, in its present run and in every past one, no number is displayed twice or out of order; each text displayed in the present run is what was sent under its number, nothing before it in its run is missing (so the `Lowest` jump skips no undelivered text), and what left the queue was displayed |
| Redelivery.ShownAgainExactly | cmd/gjallarhorn-client/conversation.go:258-345 | From every reachable state and in either direction: in no way on does a receiver that restarts show anything again that it had displayed, if and only if the head of the sender's queue is no such text and no message in flight past the receiver's last round carries one marked `Lowest` |
| Redelivery.QuietShownAgainExactly | cmd/gjallarhorn-client/conversation.go:258-345 | With nothing in flight past the receiver's last round, the head of the sender's queue alone decides |
| Redelivery.LeadsKeepsNever | cmd/gjallarhorn-client/conversation.go:258-345 | The invariant behind the one half: the sender is past these numbers, what is in flight of them follows another of them unmarked, and the restarted receiver has shown none |
| Redelivery.HeadShown | cmd/gjallarhorn-client/conversation.go:258-345 | The other half: a receiver that restarts is shown the delivered head of the queue again, from every reachable state |
| Redelivery.ShownAgainAfterRestart | cmd/gjallarhorn-client/conversation.go:258-345 | An instance: for every text there is a run that displays it twice under one number, with a restart of the receiver between |
| Delivery.SequenceNumbersNeverRepeat | cmd/gjallarhorn-client/conversation.go:210-226 | Over any number of restarts, a sequence number sent in round r is at most r+1 and stands for one text only |
| Delivery.FirstNumberWithinRound | cmd/gjallarhorn-client/conversation.go:210-226 | The first number of a run is at most round+1 if and only if `lastOut` is -1 or one text is queued; the protocol relies on the reset of `lastOut` at activation |
| Delivery.PickPlace | cmd/gjallarhorn-client/conversation.go:206-227 | The text chosen for a round: its place in the run, its number, and `Lowest` only at the head of the queue |
| Delivery.AckGrounded | cmd/gjallarhorn-client/conversation.go:326-342 | In the invariant, the number after the receiver's acknowledgement has nothing undelivered of its run before it |
| Delivery.ChainSkipsNothing | cmd/gjallarhorn-client/conversation.go:326-342 | Delivering a consecutive chain from such a position, as after a `Lowest` jump, leaves no undelivered number of any run behind |
| Delivery.ReceiveKeepsReceiver | cmd/gjallarhorn-client/conversation.go:318-342 | Taking in any message the peer ever sent, jump included, keeps everything promised about deliveries |
| Delivery.RunKeepsInv | cmd/gjallarhorn-client/conversation.go:193-345 | The two-sided invariant behind these results holds after every run |
| BoundedDelivery.EmptiedWithinBudget | cmd/gjallarhorn-client/conversation.go:210-226 | From every reachable state, restarts or not, without losses and new texts: after k(k+3)/2 rounds k unacknowledged texts are gone and everything queued in this run was delivered under its number, in both directions |
| BoundedDelivery.DeliveredWithinBudget | cmd/gjallarhorn-client/conversation.go:210-226 | If nobody has restarted, everything queued is then on the peer's screen, in order |
| MixedDelivery.MixedRoundIsExchange | client.go:212-301 | For any other clients, any chain of mixers, shuffles and noise: a round in which both peers' onions survive the filters and nobody else is on their drop, composed, sealed, batched, mixed, cut, opened and handled, is exactly a lossless round of the two conversations |
| MixedDelivery.AfterMixInSlots | cmd/gjallarhorn-client/gui.go:49-84 | What the peers do in such a round is composing the message sealed in a slot and handling what that slot's reply opens to |
| MixedExample.EveryLosslessRunCanBeMixed | client.go:212-301 | The assumptions can be met for any number of rounds: every lossless run from a reachable state is carried by some encoding and some mixed rounds |
| MixedExample.LosslessRunsHappen | client.go:212-301 | Such runs exist for every hash, names, text, key and increasing rounds |
| MixedDelivery.PeersGetEachOther | mixnet/mixnet.go:944-1016 | In such a round each peer opens, in the slot it sealed, the box the other sealed |
| MixedDelivery.DeliveredThroughMixers | client.go:212-301 | After k(k+3)/2 such rounds everything two peers had queued, k texts of it unacknowledged, has left the queue and was delivered |
| BoundedDelivery.StretchRemovesOne | cmd/gjallarhorn-client/conversation.go:210-226 | Whatever was lost before: any k+1 lossless rounds in a row take at least one of k unacknowledged texts out of the queue |
| BoundedDelivery.MeasureDecreases | cmd/gjallarhorn-client/conversation.go:305-316 | The measure of queue length and distance to the head drops by at least one in every lossless round, from cycling and pruning together |
| BoundedDelivery.RoundLeads | cmd/gjallarhorn-client/conversation.go:193-345 | A lossless round is a run of the transition system of module Delivery, so its safety results apply to it |
| BoundedDelivery.StaysInSync | cmd/gjallarhorn-client/conversation.go:403-418 | Peers whose ratchets agree for one round agree for the next one too |
| Overlap.PendingExactly | cmd/gjallarhorn-client/conversation.go:258-276 | Through any actions of a client a pending round stays, unchanged, if and only if none of them is a restart or an answer to the round itself or to one more than ten later (on uint32) |
| Overlap.AcceptedExactly | cmd/gjallarhorn-client/conversation.go:258-303 | Two peers compose for a round and one of them then does anything at all, such as composing for and answering other rounds: it accepts the peer's message, as it was sent, if and only if nothing it did forgets the round |
| Overlap.StaysWithinTen | cmd/gjallarhorn-client/conversation.go:270-276 | From round 10 on an answer leaves every other round that is at most ten older |
| Overlap.EarlyAnswersForget | cmd/gjallarhorn-client/conversation.go:270-276 | Before round 10 the subtraction wraps, and an answer forgets every other round but those within ten of the largest uint32 |
| InFlight.AcceptedInFlight | cmd/gjallarhorn-client/conversation.go:258-303 | Lossless runs with several rounds in flight, composed and answered in any interleaving and order within ten rounds: every next answer is accepted as the peer sent it, and such a run never gets stuck before its rounds are over |
| InFlight.EmptiedInFlight | cmd/gjallarhorn-client/conversation.go:193-345 | Bounded delivery with up to f rounds in flight, from every reachable state: k unacknowledged texts are gone, and everything queued in this run was delivered, after k(k+1)/2 + k(2f-1) - f + 1 rounds |
| InFlight.DeliveredInFlight | cmd/gjallarhorn-client/conversation.go:193-345 | If nobody has restarted, everything queued is then on the peer's screen, in order |
| InFlight.OneInFlight | cmd/gjallarhorn-client/conversation.go:193-345 | With one round at a time this is the bound k(k+3)/2 |
| InFlight.ConsecutiveAreClose | cmd/gjallarhorn-client/conversation.go:270-276 | Consecutive rounds from 10 on may have eleven of them in flight, more than the five the coordinator allows |
| Composing.PeersMeet | cmd/gjallarhorn-client/conversation.go:229-255 | Peers whose ratchets agree send to one drop in a round, and each box opens for the peer alone |
| Composing.ActivatedPeersMeet | cmd/gjallarhorn-client/gui.go:86-104 | Two conversations activated with one key for one round meet in it and in every later round |
| Composing.PassedRoundIsNoise | cmd/gjallarhorn-client/conversation.go:231-238 | There is noise, no pending round and no new key if and only if the ratchet has passed the round |
| Composing.EchoTakenExactly | cmd/gjallarhorn-client/conversation.go:283-298 | A box that comes back unchanged is taken for a message if and only if the conversation is with oneself |
| Composing.CoverDeliversNothing | cmd/gjallarhorn-client/conversation.go:206-213 | With nothing to send, the message is an acknowledgement that delivers nothing to any peer |
| Conversations.Conversation.QueueTextMessage | cmd/gjallarhorn-client/conversation.go:114-125 | A text joins the queue under the next relative number, which wraps on uint32 |
| Conversations.Conversation.NextMessage | cmd/gjallarhorn-client/conversation.go:193-256 | Base, cycling position, `Lowest` flag, acknowledgement, key roll, sealing and the remembered round, or cover traffic when the ratchet has passed the round |
| Conversations.Conversation.DeleteRounds | cmd/gjallarhorn-client/conversation.go:269-276 | A pending round stays if and only if it is another round than the answered one and at least round-10 on uint32 (from round 10 on: at most ten older), and it stays as it was |
| Conversations.Conversation.PruneQueue | cmd/gjallarhorn-client/conversation.go:305-316 | The in-place filter removes exactly the acknowledged texts and moves `lastOut` back with them |
| Conversations.Conversation.TakeIn | cmd/gjallarhorn-client/conversation.go:318-345 | The receiver, said outright: a text above the acknowledgement is queued, the longest consecutive run from the acknowledgement, or from just before a text marked `Lowest`, is delivered in order, and everything else keeps waiting under its own text |
| Conversations.ReceiveExactly | cmd/gjallarhorn-client/conversation.go:318-345 | The same for the receiving function: exactly which texts are delivered, what waits afterwards, and the new acknowledgement |
| Conversations.ReplyTakesIn | cmd/gjallarhorn-client/conversation.go:258-345 | An accepted reply is taken in whatever its acknowledgement removes; one that is not accepted changes nothing but the pending rounds, of which exactly those that stay are kept |
| Receiving.NothingIsDropped | cmd/gjallarhorn-client/conversation.go:318-342 | Whatever arrives above the acknowledgement is then delivered or waiting under its own text, and so is everything that waited |
| Receiving.AnyOrderDelivers | cmd/gjallarhorn-client/conversation.go:318-342 | A run of n numbers, each received at least once in any order with only its head marked `Lowest`: all n texts are delivered in order and the acknowledgement is the last number, without anything being sent again |
| Receiving.ReceivedInTurn | cmd/gjallarhorn-client/conversation.go:318-342 | Messages received one after the other are such a sequence |
| Conversations.Conversation.HandleReply | cmd/gjallarhorn-client/conversation.go:258-345 | Every branch of a reply: unknown round, own echo, failed opening, wrong size, and acceptance; in every branch exactly the rounds that stay are kept |
| Conversations.Conversation.RollAndReplaceKey | cmd/gjallarhorn-client/conversation.go:403-418 | The stored key is replaced by the rolled one, and stays when the round has passed |
| ConvoWire.MarshalInto | cmd/gjallarhorn-client/conversation.go:87-97 | The buffer writes produce the printed message, cut or padded to its field |
| ConvoWire.MarshalRoundTrip | cmd/gjallarhorn-client/conversation.go:87-112 | Parsing a printed message gives it back, its text fitted to 231 bytes |
| ConvoWire.UnmarshalRoundTrip | cmd/gjallarhorn-client/conversation.go:99-112 | Printing a parsed body gives the body back if and only if its flag byte is 0 or 1 |
| ConvoWire.ShownUnchanged | cmd/gjallarhorn-client/conversation.go:87-112 | A text arrives unchanged if and only if it fits the field and does not end in a zero byte |
| ConvoWire.BodyLayout | cmd/gjallarhorn-client/conversation.go:87-97 | Byte by byte: sequence number in bytes 0 to 3 and acknowledgement in 4 to 7, high byte first, the flag in byte 8, the text behind it |
| ConvoWire.BodyRead | cmd/gjallarhorn-client/conversation.go:99-112 | Parsing reads the same four bytes for each number, and any flag byte but zero as set |
| Ratchet.RollKeyInPlace | cmd/gjallarhorn-client/conversation.go:420-438 | The loop that overwrites one buffer computes the pure ratchet, and nothing for a passed round |
| Ratchet.RollLast | cmd/gjallarhorn-client/conversation.go:420-438 | One round more is one hash more, of the round number and the last key |
| Ratchet.RollComposes | cmd/gjallarhorn-client/conversation.go:420-438 | Rolling from a to b and then to c is rolling from a to c |
| Ratchet.RatchetAgreement | internal/testharness/convostate.go:93-116 | A peer that stores the rolled key after visiting any rounds and one that always rolls from the seed get the same key for a round; the storing peer has one if and only if it has not passed the round |
| RoundSync.AgreementExact | cmd/gjallarhorn-client/conversation.go:456-472 | Caller and receiver agree on the round if and only if the receiver is in the caller's epoch or the next, for every increment and no uint32 wrap |
| RoundSync.AgreementWithinIncrement | cmd/gjallarhorn-client/conversation.go:440-472 | The documented claim: agreement for every delay from 0 to the increment |
| RoundSync.AgreedRoundIsRecent | cmd/gjallarhorn-client/conversation.go:440-472 | The round a call names is the start of an epoch, at most the caller's latest round and less than one increment before it, the intent is that epoch's parity, and a receiver that agrees is less than two increments past it |
| RoundSync.IncomingExactly | cmd/gjallarhorn-client/conversation.go:456-472 | A receiver answers with the latest epoch start of the intent's parity that is not after its own epoch; in the very first epoch parity 1 wraps |
| DeadDrops.OrderIndependentExactly | convo/mixer.go:93-131 | The exchange commutes with every permutation of the batch if and only if every drop hit three or more times carries a single body |
| DeadDrops.AloneGetsOwn | convo/mixer.go:113-131 | A lone user of a drop gets the own body |
| DeadDrops.PairedGetsOther | convo/mixer.go:113-131 | Two users of a drop get each other's body |
| DeadDrops.LaterGetsFirst | convo/mixer.go:113-131 | In a drop of any number of users, all but the first get the body of the first |
| DeadDrops.FirstGetsSecond | convo/mixer.go:113-131 | The first of several users gets the body of the second |
| DeadDrops.PairedByBytes | convo/mixer.go:93-131 | In bytes: of 272, the first 16 name the drop; a pair gets each other's other 256 |
| AccessCounts.CountPass | convo/mixer.go:94-111 | The one-pass switch leaves the first two slots of every drop in the table, and counters equal to the numbers of drops hit once and more than once |
| AccessCounts.HandleMessages | convo/mixer.go:93-131 | The table pass and the per-slot pass, in any order of slots, give every slot its declared answer |
| AccessCounts.CountsCoverBatch | convo/mixer.go:94-111 | `singles + 2*doubles` equals the batch size if and only if no drop is hit three times |
| AccessCounts.OnceIsAlone | convo/mixer.go:94-111 | A drop is counted single if and only if its user is alone, double if and only if not |
| AccessCounts.CountsOrderFree | convo/mixer.go:94-111 | The counters do not depend on the order of the batch |
| Noise.NoiseCounted | convo/noise.go:13-38 | S fake singles and D/2 fake pairs on fresh drops raise the two counters by exactly S and D/2 |
| Noise.FillWithFakeSingles | convo/noise.go:13-22 | Every slot of its range gets its sealed random message, in any order, and no other slot changes |
| Noise.FillWithFakeDoubles | convo/noise.go:24-38 | Every pair of slots gets two sealed messages on one drop, in any order; an odd last slot stays as it was |
| Noise.GenerateNoise | convo/mixer.go:73-91 | For every draw: all but the last mixer fill exactly the drawn singles and an even number of doubles, or fail when the two numbers do not fit a uint32 together |
| ChainRouting.ChainRoutes | mixnet/mixnet.go:504-639 | For any number of mixers, shuffles and noise: an onion that survives every filter arrives as its payload, and peeling the reply in its slot with its keys gives what the last mixer answered to it |
| ChainRouting.ReplySizes | mixnet/mixnet.go:612-639 | Every reply has the one size of its hop, whatever became of its onion |
| ChainRouting.TraceInjective | mixnet/mixnet.go:479-567 | Two surviving onions never become the same message |
| ChainRouting.LostOnlyToCollision | mixnet/mixnet.go:479-502 | A well-formed onion is lost if and only if, at some mixer, an earlier slot decrypted to a message with the same last eight bytes |
| ChainRouting.KeptSlotSealed | mixnet/mixnet.go:612-639 | A kept slot's reply is sealed under that slot's own shared key |
| ChainRouting.DroppedSlotSealed | mixnet/mixnet.go:612-639 | A dropped slot gets zeros of the common size under a fresh key |
| ChainRouting.WrongSizeSealed | mixnet/mixnet.go:612-639 | So does a kept slot whose answer has a wrong size |
| ChainRouting.ClientOnionOpens | client.go:236-241 | The chain finds in a client's onion the client's message and exactly the keys the client kept |
| ChainRouting.LayerOpens | mixnet/mixnet.go:336-367 | A mixer opens its layer and computes the client's key for it |
| EndToEnd.PairExchanges | mixnet/mixnet.go:944-1016 | Two clients that alone use a drop receive each other's body through any chain of mixers |
| EndToEnd.LoneClientEchoes | mixnet/mixnet.go:944-1016 | A client that alone uses a drop receives its own body through any chain of mixers |
| EndToEnd.ClientSizeCheck | client.go:277-284 | The replies have the size the client demands |
| EndToEnd.DecryptByBytes | mixnet/mixnet.go:336-367 | In bytes: only onions of 48 per mixer and 272 are opened, with the key from the first 32 bytes |
| MixServer.RunRoundBidirectional | mixnet/mixnet.go:504-639 | The in-place round of a whole chain (slots, filter, shuffle, recursion, unshuffle, cut, sealing, fetching) computes the round function; the batch each mixer hands on is, as a multiset and place by place through its shuffle, the decrypted messages that do not end like an earlier one and all of its noise, and the last mixer handles just these |
| MixServer.RoundState.OpenStream | mixnet/mixnet.go:426-441 | The first stream allocates the slots, later ones must announce the same number |
| MixServer.RoundState.DecryptJob | mixnet/mixnet.go:336-367 | A job writes exactly the slots of its right-sized onions, each from its own onion |
| MixServer.AddOnions | mixnet/mixnet.go:861-916 | Two levels of spans, in any order of connections, leave every slot holding its own onion's decryption and key |
| MixServer.StreamAddOnions | mixnet/mixnet.go:830-851 | One connection fills its span and disturbs no slot already filled |
| MixServer.RoundState.FilterIncoming | mixnet/mixnet.go:479-502 | The loop with the set of seen keys computes the first occurrences and their index map: a slot gets -1 if and only if it did not decrypt or an earlier decrypted slot has the same last eight bytes |
| MixServer.RoundState.EncryptReplies | mixnet/mixnet.go:612-639 | In any order of slots, and although the key variable outlives an iteration, each slot is sealed with its own key or with zeros under a fresh one |
| MixRounds.IndexPointsToMessage | mixnet/mixnet.go:479-502 | A kept slot's index is where its message is in the filtered list |
| MixRounds.IndexKeepsOrder | mixnet/mixnet.go:479-502 | The index map keeps the order of the kept slots |
| MixRounds.IndexOnto | mixnet/mixnet.go:479-502 | Every place of the filtered list is some kept slot's |
| MixRounds.ValidKeysDistinct | mixnet/mixnet.go:479-502 | No two messages of the filtered list have the same last eight bytes |
| MixRounds.EveryKeyKept | mixnet/mixnet.go:479-502 | No ending of eight bytes that came in is missing from the filtered list |
| MixRounds.KeptExactly | mixnet/mixnet.go:479-502 | A slot is kept if and only if it decrypted and no earlier decrypted slot has the same last eight bytes |
| Shuffles.ShuffleKeepsAll | mixnet/mixnet.go:543-547 | A shuffle keeps the multiset of the batch |
| MixBatch.EverythingIsHandled | mixnet/mixnet.go:504-567 | For batches handed on as above, when every onion opens everywhere and no two messages end alike: what the last mixer handles is, as a multiset, the messages inside the clients' onions and inside every mixer's noise |
| MixBatch.HandedIsNext | mixnet/mixnet.go:504-567 | Any batch handed on this way is the one the routing results speak of |
| MixBatch.HandledIsLast | mixnet/mixnet.go:504-567 | And what the last mixer then handles is their last batch |
| MixBatch.EveryoneArrives | mixnet/mixnet.go:504-567 | Whatever else is lost: an onion that survives every filter has its message in what the last mixer handles |
| MixBatch.NoiseArrives | mixnet/mixnet.go:543-567 | Whatever else is lost: every noise onion of every mixer is, at its place, in the batch that the next one gets, and if it survives the later filters its message is in what the last mixer handles |
| MixBatch.CountsOfSame | convo/mixer.go:94-111 | The last mixer's counters depend only on the multiset of the batch |
| MixBatch.SealedInside | client.go:236-241 | Inside onions sealed for a chain are the messages that were sealed |
| MixBatch.GeneratedIsDrawn | convo/noise.go:13-38 | Inside the noise that a mixer generates, sealed for the mixers after it, is exactly what it drew |
| MixBatch.LastMixerCounts | convo/mixer.go:73-131 | The last mixer of such a round counts the clients' drops and exactly the singles and pairs that the mixers before it drew |
| Onions.NoncesDiffer | mixnet/mixnet.go:1018-1030 | Nonces of different rounds or directions differ |
| Onions.SealOnionSize | mixnet/mixnet.go:247-247 | An onion for h mixers has the size the first of them expects |
| Onions.NonceLayout | mixnet/mixnet.go:1018-1030 | A nonce is the round in four bytes, 0 for onions or 1 for replies, and nineteen zeros |
| Onions.OnionLayout | client.go:236-241 | An onion is 32 bytes of public key and the box of the next layer, 48 bytes a layer |
| Onions.PeelsExactly | client.go:277-291 | A reply peels to a message if and only if there is a layer for every key between them |
| Spans.AtMostNineConnections | mixnet/mixnet.go:853-859 | A batch of any size is split over at most nine connections |
| Spans.NineConnectionsExactly | mixnet/mixnet.go:853-859 | Nine connections are used for batches of nine onions and for no others |
| Spans.SpansPartition | mixnet/mixnet.go:861-916 | Every index lies in exactly one span |
| Spans.SpansInRange | mixnet/mixnet.go:861-916 | Spans stay in range and are not empty |
| Spans.PiecesOfSixteen | mixnet/mixnet.go:641-673 | Pieces of a span have sixteen onions, the last one at most that |
| Spans.FetchSpan | mixnet/mixnet.go:641-673 | One connection's pieces rebuild its span of the replies and nothing else |
| Spans.FetchAll | mixnet/mixnet.go:950-1016 | The pieces of all connections, in any order, rebuild the server's replies exactly |
| CloseBarrier.NothingChangesAfterWait | mixnet/mixnet.go:504-540 | In every interleaving, once `CloseRound` on a non-empty round is past its wait no job is queued or running and no slot ever changes again |
| CloseBarrier.FilterSeesDecryptedBatch | mixnet/mixnet.go:411-540 | If the requests cut a batch in any way and all were accepted, the filter sees exactly the decrypted batch and its shared keys, in every interleaving |
| CloseBarrier.ReachableInv | mixnet/mixnet.go:336-464 | The wait group is the number of queued and running jobs in every reachable state, and accepted jobs have their slots |
| CloseBarrier.SentOnExactly | mixnet/mixnet.go:443-464 | In every interleaving a request is queued and counted if and only if its slots exist and the round was not closed with onions in it |
| CloseBarrier.BatchGetsThrough | mixnet/mixnet.go:336-540 | For every batch cut into requests some interleaving decrypts all of it and hands it to the filter |
| CloseBarrier.BarrierExactly | mixnet/mixnet.go:426-530 | Past the wait, before the round's lock is taken again, and with a request left that would write a slot: nothing changes in any way on if and only if the round had onions when `CloseRound` began |
| CloseBarrier.WriteDuringFilter | mixnet/mixnet.go:426-540 | In a round without onions at the close such a write can come while the filter runs |
| CloseBarrier.ClosedTooEarly | mixnet/mixnet.go:426-530 | Rounds where the barrier fails are reached: closed before any stream begins, or with the first stream beginning during the wait |
| RoundSetup.Mixer.NewRound | mixnet/mixnet.go:185-259 | Uninterrupted: a round that is there keeps its key, a new one gets this mixer's last place in the chain and the onion size there; all error cases |
| RoundSetup.SetUpExactly | mixnet/mixnet.go:185-259 | A round is set up if and only if the service is known, every key has 32 bytes and the mixer's is among them; its place is the last such one and it expects 48 bytes for every layer from there |
| RoundSetup.Mixer.SetRoundSettings | mixnet/mixnet.go:268-328 | Uninterrupted: the first settings with a key per mixer and this mixer's key at its place are signed, and later calls for that entry get that signature; all error cases |
| RoundSetup.Mixer.DeleteRound | mixnet/mixnet.go:675-690 | Exactly that round is gone, with an error if there was none |
| RoundSetup.CallsInHalves | mixnet/mixnet.go:185-328 | The halves of a call, one after the other, do what the uninterrupted call does |
| RoundSetup.SettingsStandExactly | mixnet/mixnet.go:185-328 | In every interleaving of calls: a round that has signed some settings signs nothing else if and only if it is not deleted and no call under way holds another entry of it that would be stored or would sign something else |
| RoundSetup.TwoSettingsHappen | mixnet/mixnet.go:675-690 | A mixer does sign two different settings for a round, after a deletion or, without one, when two calls of `NewRound` overlapped |
| RoundSetup.SignedKeyIsTheMixers | mixnet/mixnet.go:268-328 | A signature tells a client that there is a key per mixer, that the key at the signer's place is that of the entry that signed, and what onion size it expects |
| RoundSetup.SignedKeyIsCurrentExactly | mixnet/mixnet.go:268-328 | The mixer decrypts with the key a client seals for if and only if the entry that signed is still the one in the table |
| RoundSetup.OneSettingsPerEntry | mixnet/mixnet.go:292-297 | Two signatures that differ come from two set-ups of the round |
| Varints.ReadEncode | mixnet/convopb/mixnet.pb.go:1063-1071 | The reading loop gives back every printed uint64, whatever follows |
| Varints.SizeExact | mixnet/convopb/mixnet.pb.go:1249-1258 | A number takes at most k bytes if and only if it is below 128 to the k |
| Varints.EncodeIsShortest | mixnet/convopb/mixnet.pb.go:1063-1071 | No shorter bytes read as the same number |
| Varints.EncodeVarint | mixnet/convopb/mixnet.pb.go:1063-1071 | The loop writes exactly the printed number at the offset and nothing else |
| Varints.Sov | mixnet/convopb/mixnet.pb.go:1249-1258 | The size loop returns exactly the number of bytes printed |
| Varints.ReadVarint | mixnet/convopb/mixnet.pb.go:1318-1332 | The shift-by-7 loop with its truncation computes the number, its end and its two errors |
| MessageLayout.VarintDigits | mixnet/convopb/mixnet.pb.go:1063-1071 | Byte i of a printed number is its base-128 digit i, with 128 added on all but the last |
| Wire.UnmarshalComposes | mixnet/convopb/mixnet.pb.go:1312-1440 | For every message type: parsing a and then b is parsing a followed by b |
| Wire.UnknownFieldIgnored | mixnet/convopb/mixnet.pb.go:1421-1434 | For every message type: a well-formed unknown field of any wire type, nested groups included, at a field boundary changes nothing |
| Wire.SkipsUnknown | mixnet/convopb/mixnet.pb.go:2561-2659 | The skipper takes exactly a well-formed field, whatever follows it |
| Wire.Skip | mixnet/convopb/mixnet.pb.go:2561-2659 | The skipper always advances |
| Wire.SkipSizes | mixnet/convopb/mixnet.pb.go:2561-2659 | How many bytes an unknown field takes for each wire type, in literal tag bytes |
| Wire.NumberErrors | mixnet/convopb/mixnet.pb.go:1318-1332 | A number that is cut off is an unexpected end, and ten continued bytes are an overflow |
| Wire.FieldErrors | mixnet/convopb/mixnet.pb.go:1315-1405 | For a first byte below 128: field 0, group ends, unknown wire types and a known field with the wrong wire type give their errors |
| Wire.UnmarshalPrinted | mixnet/convopb/mixnet.pb.go:1312-1440 | For every message type: parsing printed fields has their effects in order |
| Wire.NextLocal | mixnet/convopb/mixnet.pb.go:1312-1440 | A field that parses does so whatever follows it |
| Codec.SkipMixnet | mixnet/convopb/mixnet.pb.go:2561-2659 | The skipper's loops compute the skip function, with its errors |
| Codec.ReadField | mixnet/convopb/mixnet.pb.go:1315-1405 | One turn of a parsing loop: tag, illegal tags, wrong wire types, lengths that fit an int index, and unknown fields |
| Messages.AddOnionsRoundTrip | mixnet/convopb/mixnet.pb.go:890-909 | Parsing a printed `AddOnionsRequest` gives it back |
| Messages.AddOnionsMerges | mixnet/convopb/mixnet.pb.go:1954-2051 | Parsing into a filled message: the last offset wins, onions are appended |
| Messages.AddOnionsConcatenated | mixnet/convopb/mixnet.pb.go:1954-2051 | Two printed requests back to back read as their merge |
| Messages.GetOnionsRoundTrip | mixnet/convopb/mixnet.pb.go:974-1001 | Parsing a printed `GetOnionsRequest` gives it back |
| Messages.GetOnionsMerges | mixnet/convopb/mixnet.pb.go:2229-2364 | Parsing into a filled `GetOnionsRequest`: the last value of every field wins |
| Messages.SettingsRoundTrip | mixnet/convopb/mixnet.pb.go:795-826 | Parsing printed `RoundSettings` gives them back |
| Messages.SettingsMerges | mixnet/convopb/mixnet.pb.go:1632-1789 | Parsing into filled `RoundSettings`: last value wins, keys are appended |
| Messages.NewRoundRoundTrip | mixnet/convopb/mixnet.pb.go:700-729 | Parsing a printed `NewRoundRequest` gives it back, with the messages inside it |
| Messages.NewRoundMerges | mixnet/convopb/mixnet.pb.go:1312-1440 | Parsing into a filled `NewRoundRequest`: last value wins, servers are appended |
| Messages.ServerMerges | mixnet/convopb/mixnet.pb.go:1441-1550 | Parsing into a filled `PublicServerConfig`: last value wins |
| MessageLayout.AddOnionsLayout | mixnet/convopb/mixnet.pb.go:890-909 | The printed bytes, with literal tags: each field that is not zero or empty as tag, number or length, and content, in order |
| MessageLayout.GetOnionsLayout | mixnet/convopb/mixnet.pb.go:974-1001 | The same for `GetOnionsRequest`: 0x0a, 0x10, 0x18, 0x20 |
| MessageLayout.SettingsLayout | mixnet/convopb/mixnet.pb.go:795-826 | The same for `RoundSettings` |
| MessageLayout.ServerLayout | mixnet/convopb/mixnet.pb.go:741-759 | The same for `PublicServerConfig` |
| MessageLayout.NewRoundLayout | mixnet/convopb/mixnet.pb.go:700-729 | The same for `NewRoundRequest`, with the messages inside it |
| MessageLayout.AddOnionsReads | mixnet/convopb/mixnet.pb.go:1954-2051 | Parsing one field with its literal tag sets, or appends to, exactly the field of that name |
| MessageLayout.GetOnionsReads | mixnet/convopb/mixnet.pb.go:2229-2364 | The same for `GetOnionsRequest` |
| MessageLayout.SettingsReads | mixnet/convopb/mixnet.pb.go:1632-1789 | The same for `RoundSettings` |
| MessageLayout.ServerReads | mixnet/convopb/mixnet.pb.go:1441-1550 | The same for `PublicServerConfig` |
| MessageLayout.NewRoundReads | mixnet/convopb/mixnet.pb.go:1312-1440 | The same for `NewRoundRequest` |
| CodecMessages.AddOnionsRequest.Size | mixnet/convopb/mixnet.pb.go:1164-1177 | Exactly the number of bytes printed |
| CodecMessages.AddOnionsRequest.MarshalTo | mixnet/convopb/mixnet.pb.go:890-909 | Exactly the printed fields at the offset, and nothing else in the buffer changes |
| CodecMessages.AddOnionsRequest.Marshal | mixnet/convopb/mixnet.pb.go:880-888 | A buffer that holds the printed message and nothing more |
| CodecMessages.AddOnionsRequest.Unmarshal | mixnet/convopb/mixnet.pb.go:1954-2051 | The loop leaves in the object what the parsing function gives, or reports its error |
| CodecMessages.GetOnionsRequest.Size | mixnet/convopb/mixnet.pb.go:1202-1219 | Exactly the number of bytes printed |
| CodecMessages.GetOnionsRequest.MarshalTo | mixnet/convopb/mixnet.pb.go:974-1001 | Exactly the printed fields at the offset, and nothing else in the buffer changes |
| CodecMessages.GetOnionsRequest.Unmarshal | mixnet/convopb/mixnet.pb.go:2229-2364 | The loop leaves in the object what the parsing function gives, or reports its error |
| CodecMessages.RoundSettings.Size | mixnet/convopb/mixnet.pb.go:1121-1142 | Exactly the number of bytes printed |
| CodecMessages.RoundSettings.MarshalTo | mixnet/convopb/mixnet.pb.go:795-826 | Exactly the printed fields at the offset, and nothing else in the buffer changes |
| CodecMessages.RoundSettings.Unmarshal | mixnet/convopb/mixnet.pb.go:1632-1789 | The loop leaves in the object what the parsing function gives, or reports its error |
| CodecMessages.PublicServerConfig.MarshalTo | mixnet/convopb/mixnet.pb.go:741-759 | Exactly the printed fields at the offset, and nothing else in the buffer changes |
| CodecMessages.PublicServerConfig.Unmarshal | mixnet/convopb/mixnet.pb.go:1441-1550 | The loop leaves in the object what the parsing function gives, or reports its error |
| CodecMessages.NewRoundRequest.Size | mixnet/convopb/mixnet.pb.go:1078-1095 | Exactly the number of bytes printed, those of the messages inside included |
| CodecMessages.NewRoundRequest.MarshalTo | mixnet/convopb/mixnet.pb.go:700-729 | Exactly the printed fields at the offset, and nothing else in the buffer changes |
| CodecMessages.NewRoundRequest.Unmarshal | mixnet/convopb/mixnet.pb.go:1312-1440 | The loop leaves in the object, and in the objects it appends to its chain, what the parsing function gives, or reports its error |
| Scheduler.FlightsConserved | coordinator/server.go:273-348 | In every interleaving free tokens and running rounds add up to 5, a launch is possible exactly when fewer than 5 run, no refill drops its token, the table never holds more than 5 rounds, and any two deadlines are at least `RoundDelay` apart per round between them |
| Scheduler.AcceptedIsMixedExactly | coordinator/server.go:219-248 | A bundle that a collecting round holds is mixed in every way on if and only if the coordinator is not shut down, by then or later |
| Scheduler.AcceptedIsMixed | coordinator/server.go:219-248 | While the coordinator is not shut down: of a round that waits for nothing any more, a bundle was accepted without an error if and only if the round was mixed with it |
| Scheduler.AcceptedIffMixed | coordinator/server.go:399-404 | A batch that was mixed is exactly what was accepted into its round, each bundle once, shut down or not |
| Scheduler.BatchFixed | coordinator/server.go:399-404 | A batch that is being mixed never changes |
| Scheduler.ShutdownAbandonsAccepted | coordinator/server.go:395-397 | A shutdown during a round's wait leaves a bundle that was accepted without an error and is never mixed |
| Scheduler.BatchAfterDelay | coordinator/server.go:318-333 | No batch is fixed sooner than `RoundDelay` after its round was launched |
| Scheduler.LetInExactly | coordinator/server.go:219-248 | The i-th launched round has the number first+1+i, and in every interleaving a bundle that names it and is added at once is accepted if and only if the round is collecting |
| Scheduler.CanBeMixed | coordinator/server.go:390-404 | A collecting round can always be brought to its batch, which is all it holds |
| Scheduler.FlightsLand | coordinator/server.go:334-372 | A round whose set-up failed, or whose batch was mixed, leaves the table and frees its token |
| Coordinator.Server.NextFlight | coordinator/server.go:294-333 | One turn of the loop: token, round number, deadline |
| Coordinator.Server.Refill | coordinator/server.go:334-338 | The non-blocking refill |
| Coordinator.Server.OpenRound | coordinator/server.go:371-388 | The round gets a fresh open state without bundles, and no other round changes |
| Coordinator.Server.IncomingOnion | coordinator/server.go:219-248 | The named round gets the bundle if it exists and is open, no other round changes, and the error says which check failed |
| Coordinator.Server.FinishRound | coordinator/server.go:399-404 | The round closes, its whole batch is mixed, its replies are cut and sent, and it leaves the table |
| Batching.MixOnions | coordinator/server.go:423-463 | Sender i is sent exactly its range of the replies, or nobody anything when mixing fails |
| Batching.JoinBundles | coordinator/server.go:424-438 | The bundles are concatenated and every range is where its bundle is |
| Batching.RangesPartition | coordinator/server.go:429-438 | Every place of the batch lies in exactly one sender's range |
| Batching.RepliesConserved | coordinator/server.go:453-462 | The replies sent, put together, are the mixed replies |
| Batching.SlotsLineUp | coordinator/server.go:429-462 | Reply j of a sender is the mixers' reply to onion j of its bundle |
| Restarts.RestartGap | coordinator/persist.go:49-65 | A run that has saved once and lost at most the 4 later saves may die: the next run starts above all its rounds, however its savers interleaved |
| Restarts.SaverRuns | coordinator/server.go:296-316 | A launch makes a saver exactly at every 20th round; one that runs puts that round on disk, and the next run starts 100 above it |
| Restarts.RestartSafeExactly | coordinator/server.go:280-280 | The next run's first round is above all earlier rounds if and only if the counter is at most 100 above the saved round |
| Restarts.RoundsNeverRepeat | coordinator/server.go:280-316 | Over any number of runs, each of which had saved once and lost at most the 4 later saves when it died, the launched rounds strictly increase |
| Restarts.UnsavedRunRepeats | coordinator/server.go:280-280 | A run that dies before its first save repeats a round, for every saved round |
| SlotAlignment.AnswerReachesSlot | client.go:212-301 | With any other bundles in the batch: what a client opens in slot j of its reply is the exchange's answer to the message it sealed in slot j |
| ClientSlots.GuiClient.Outgoing | cmd/gjallarhorn-client/gui.go:49-73 | Always five messages; slot i is composed by the conversation remembered for it, every active conversation has exactly one slot, the rest is noise |
| ClientSlots.GuiClient.Replies | cmd/gjallarhorn-client/gui.go:75-84 | Slot i's reply goes to the conversation that composed slot i and to no other, the round is forgotten, and the object stays valid |
| ClientSlots.GuiClient.PlayRound | client.go:234-296 | A whole round of a client: every active conversation composes once and handles the answer to its own message |
| ClientSlots.GuiClient.ActivateConvo | cmd/gjallarhorn-client/gui.go:86-104 | At most five conversations are ever active |
| ClientSlots.GuiClient.DeactivateConvo | cmd/gjallarhorn-client/gui.go:106-117 | Exactly the given conversation becomes inactive |
| ClientSlots.Client.SetLatestRound | client.go:128-134 | The latest round never goes back |
| ClientSlots.Client.NewConvoRound | client.go:158-210 | A round is run once however often it is announced and not when too little time is left; another configuration for a known round is an error, and an unknown configuration is fetched and becomes the current one |
| ClientSlots.Client.SealMessages | client.go:234-245 | Onion i is the seal of message i, and its keys are kept under slot i |
| ClientSlots.Client.OpenReplyOnion | client.go:256-301 | All error cases; message i is opened with slot i's keys, and only if its onion has 16 bytes per mixer more than a message body; the round is over only on success |

## Left out

- Cryptography: box, secretbox, onionbox, the hashes and signatures are functions of which only "open undoes seal", the shared-key symmetry, sizes and "a signature names its signer and content" are used; in the conversation protocol a sealed message is a symbolic value.
- Randomness: shuffles, noise amounts, noise contents and fresh keys are arbitrary parameters; only that a shuffle is a permutation with its inverse is used.
- The span, parallel-loop and shuffle libraries are not part of this model; they appear as consecutive spans, "every index once, in any order" and a permutation with its inverse.
- Services that are not bidirectional, `RunRoundUnidirectional` and the stored result of a repeated `CloseRound`; `DeleteRound` appears in the set-up of rounds only, not in the state of a round being mixed.
- gRPC, TLS authentication, websockets, connection caching, cancelled calls and lost connections; a mixing failure appears only as the coordinator's error branch.
- The test harness's own sealing, opening and dead-drop functions; its key rolling from the seed is in `Ratchet.RatchetAgreement`.
- GUI drawing, status fields (`lastRound`, `lastPeerResponding`, `lastLatency`, `pendingCall`), formatting of displayed lines, commands, configuration fetching and the JSON files.
- Delivery.InOrderExactlyOnce: sequence sums and round+1 do not wrap uint32 (`NoWrap` guards queueing and composing), composing rounds strictly increase over the life of a client, and the two names differ (no conversation with oneself).
- Delivery.SafeAcrossRestarts: a number can be displayed again after a restart of the receiver (when exactly is `Redelivery.ShownAgainExactly`, for rounds that leave room for one more in a uint32); a restart forgets what was queued, so texts queued before it and not delivered are lost, as in the program; the coordinator's clock and the mix network are replaced by an arbitrary choice of which box answers which round.
- InFlight.EmptiedInFlight: the answers to a round are handled by both sides before either composes f rounds further, and rounds in flight together are from 10 on and within ten (earlier ones, or ones further apart, are forgotten: `Overlap.AcceptedExactly`).
- Delivery.SequenceNumbersNeverRepeat: a client composes in a round before it handles an answer of that or a later round, which is the order of the program's calls.
- The comment at cmd/gjallarhorn-client/conversation.go:207-208 (no duplicate numbers across restarts) holds only because activation resets `lastOut`; see `Delivery.FirstNumberWithinRound`.
- Keys are values; that the source shares a key through pointers is not modelled (it never overwrites a key that was handed out).
- CloseBarrier.NothingChangesAfterWait: one call of `CloseRound` per round is in flight, requests of a stream may be sent in any order (more interleavings than the program has), and the blocking send to the workers is a send that is enabled when the channel has room.
- MixServer.RunRoundBidirectional: workers run one after the other here; all their interleavings are in module CloseBarrier. Offsets are unbounded numbers: sums do not wrap uint32.
- RoundSetup.Mixer.NewRound: in the source a call unlocks between finding no round and storing one (mixnet/mixnet.go:209-255), so overlapping calls can return different keys; the method is the uninterrupted call, and all interleavings are in the transition system of the same module. The caller's authentication, failing key generation, and the parsing of service data (which cannot fail for this service) are left out.
- Codec.ReadField: an end index is an unbounded number, so a declared length that wraps the Go int reads as an unexpected end here, where the source fails in another way.
- Codec.ReadField: the reading loops, which the generator repeats for every field, are one method here; bitwise operations are written as the arithmetic they amount to (`& 0x7F` as `% 128`, `>> 7` as `/ 128`, or-ing shifted digits as adding them).
- Wire.SkipsUnknown: covers every well-formed field; of malformed ones only the errors and the advance are stated. Recursion depth and stack are not modelled.
- Messages not listed (`NewRoundResponse`, `SetRoundSettingsRequest`, `RoundSettingsSignature`, `CloseRoundRequest`, `CloseRoundResponse`, `GetOnionsResponse`, `DeleteRoundRequest`, `Nothing`) have only shapes of the listed ones; nil and empty byte slices are one value; `sozMixnet` is not used.
- Scheduler.FlightsConserved: waiting is replaced by a clock that moves at any time and never goes back; a round starts, opens, closes, returns and refills in single steps, and a launch is still possible after a shutdown.
- Restarts.RestartGap: round numbers do not wrap uint32, and a file write is atomic.
- MixedDelivery.MixedRoundIsExchange: the bytes of a conversation's drop and box are arbitrary fixed-size encodings, of which only "these two boxes are read back as themselves" is used.
- ClientSlots.Client.NewConvoRound: fetching and verifying a chain of configurations is a parameter, persisting the client is left out, and so is the signature check before a round; what signatures mean is in module RoundSetup.

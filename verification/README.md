# Verified model of the Joltify bridge

The bridge moves tokens between a public EVM chain and the Joltify chain. This project models its deterministic control
state: the matcher that pairs token deposits with BNB fees, the two retry bags, the life of requests in both directions,
the cached pool windows, the drain jobs of retired pools, the drain and gas arithmetic, and the signature byte formats.
The event loop is one goroutine, so each of its select cases is one step; the two spawned status checks are separate
later steps. The chains, the signers and Keccak are parameters: their answers are arguments of the handlers, and the hash
is a function-valued constant.

Code that the source runs in place is imperative here too: `InboundMatcher`, `RetryBag`, `InboundQueue`, `InboundSide`,
`OutboundQueue`, `MoveFundQueue`, `PoolKeeper` and `ProposalQueue` are classes, with request objects whose height is reset
through a shared reference and retry keys compared by address. Every handler is proved equal to one step of a machine on
values, and the theorems about whole runs are about those machines. The machines of both directions hold the chain they
send to as well: its records, the number of each account (sequence or nonce) and the transactions in flight, which land at
any later time or never. `EventLoop` joins the machines: one cache of pools feeds the matcher and the intake and signs.
What the machines do is told a second time without their step functions: `InboundLaws`, `OutboundLaws`, `LoopLaws` and
`BlockCounts` say, from the events, the answers and the transactions alone, what enters and leaves each place over whole
runs.

| file | contents |
|---|---|
| `Config.dfy`, `Collections.dfy`, `Hex.dfy` | constants, multisets and sums, transaction ids |
| `MatcherSpec.dfy`, `MatcherTheorems.dfy`, `BlockCounts.dfy`, `Matcher.dfy` | the inbound matcher: machine, theorems, which transactions of a block count, class |
| `RetryBag.dfy` | the retry map of both sides, which the source writes twice |
| `Landing.dfy` | transactions in flight to a chain and exactly when they are harmless |
| `InboundFlow.dfy`, `InboundLaws.dfy`, `InboundQueue.dfy`, `InboundSide.dfy` | inbound requests: machine, what enters and leaves each place, classes |
| `Ownership.dfy`, `Submissions.dfy`, `DoubleMints.dfy`, `MintSafety.dfy` | inbound theorems: conservation, when an index can be minted twice, runs that do it, what mints are worth |
| `Outbound.dfy`, `OutboundFlow.dfy`, `OutboundLaws.dfy`, `Payments.dfy`, `OutboundQueue.dfy` | outbound intake, requests, what enters and leaves each place, payments, class |
| `Scheduler.dfy`, `Rotation.dfy` | drain jobs of one chain, pool caches |
| `Draining.dfy`, `LivePools.dfy`, `DrainRuns.dfy`, `PoolKeeper.dfy` | caches and both chains' jobs over runs, drains of pools in use, runs that fail, class |
| `EventLoop.dfy`, `LoopLaws.dfy`, `EventRuns.dfy`, `LoopRuns.dfy` | the machines joined, what each select case does, two runs that go wrong |
| `Proposals.dfy` | the queue of pool proposals to submit |
| `Drain.dfy`, `Signature.dfy` | drain and gas arithmetic, signature bytes |

Where the source falls short of a rule one might expect, the theorem says exactly when the rule holds:

- The selector of a call is never compared with that of transfer, so other calls of the token contract that name a pool
  count as deposits too (`SeenAreTransfersIff`, `ApprovalCountsAsDeposit`); the mints are backed by transfers when no such
  call is counted (`MintSafetyOverRuns`).
- An index can come to be minted twice exactly when a request is submitted whose index is on the chain, or while another
  submission for it, with another account or sequence, can still land (`NeverCanMintTwiceIff`). The first happens when a
  lookup fails and is read as "not there" (`MissedLookupMintsTwice`); the second, although every answer is truthful, when
  the pools rotate while a submission is in flight (`HonestRiskIff`, and `RotationMintsTwice` of the inbound side and of
  the whole loop), and never while one pool signs (`OnePoolMintsOnce`).
- Outbound nothing plays the part of the lookup, and nonces are asked for anew: a request can come to be paid twice exactly
  when it is sent again while paid or while an earlier transfer can still be executed (`NeverCanPayTwiceIff`,
  `FreshNoncesRiskIff`), as after a send that fails for the node but not for the network (`RefusedSendPaysTwice`).
- A transfer names the latest pool of its intake as sender and is signed by the latest pool of its sending; they agree
  exactly if that pool's address stayed (`SenderSignsIff`, `RotationChangesSigner`).
- A head below a stored entry's block makes the wrapping age huge and expires the entry at once
  (`AgeRuleIff`, `HeadGoingBackExpires`).
- Two drain jobs under one height overwrite each other. On the Joltify side this happens exactly when the pools rotate in
  the block right after one that put a job back (`BlockLosesIff`), on the public side also when they rotate twice between
  two heads (`HeadPeriodLosesIff`); `LossesOverRuns` adds the losses up over whole runs, and one run does both
  (`RotationAfterPutBackLosesJob`).
- A pool that comes back into the pair while a job of its earlier exit waits can be drained although in use
  (`LiveIsSafeIff`, `WaitingIffCanDrain`); `ReturnedPoolIsDrained` is a run that does it.
- A comment at bridge/joltifyBridge.go:218 says the first drain of a retired pool does not wait; the key stored is one
  block old, so it waits six more blocks (`FirstDrainWaits`).
- The first fill caches the pair reversed; only some second answers repair it (`SecondAnswerRepairsIff`,
  `EarlyRotationKeepsReversal`), and a missed rotation breaks tracking (`TracksIffFollows`, `MissedRotationLosesTrack`).
- A drain never finishes when the BNB left is worth more than dust but not a sweep (`DrainTerminatesIff`,
  `DustAndReserveNeverDrain`).
- A pool proposal whose height has passed blocks all proposals behind it for good (`HeadLeavesIff`).
- `SerializeSig` folds S and leaves V alone, and a V of more than one byte overwrites the tail of S
  (`SerializeRoundTrip`, `TwoByteVBreaksS`).

## Model

| member | source | states |
|---|---|---|
| `MatcherTheorems.RunKeepsInv` | pubchain/tx_inbound.go:69-150 | after any events no id waits both for its deposit and for its fee, and every waiting deposit is short of the minimum fee |
| `MatcherTheorems.DepositResult` | pubchain/tx_inbound.go:95-150 | a deposit is refused, changing nothing, iff its id waits or the token is wrong, sent on iff its fee is there and its id hexadecimal, and otherwise waits or is dropped |
| `MatcherTheorems.RunIsLocal` | pubchain/tx_inbound.go:69-150 | for every id, what the matcher holds and releases after any events, expiry included, is what an automaton of that id alone holds and releases |
| `MatcherTheorems.OtherIdsNeverMatter` | pubchain/tx_inbound.go:69-150 | removing all events of other ids changes neither the state nor the releases of an id |
| `MatcherTheorems.NeverReleasedWithoutToken` | pubchain/tx_inbound.go:69-81 | from every well-formed state an id with no deposit waiting or coming is never released, whatever fees, expiry passes and other ids do |
| `MatcherTheorems.ReleasedIffFeesReachMinimum` | pubchain/tx_inbound.go:69-150 | with one deposit and no expiry the id is released iff the last fee before it plus all fees after it reach the minimum, and then once, for the depositor and amount of the deposit |
| `MatcherTheorems.OrderConfluence` | pubchain/tx_inbound.go:112-149 | deposit then sufficient fee, or fee then deposit, with any events of other ids in between, release the same depositor, amount and transaction id bytes, one to the retry bag and one to the channel |
| `MatcherTheorems.RunConserves` | pubchain/tx_inbound.go:69-150 | as multisets of id, depositor and amount: accepted and initially waiting deposits are those released, expired and still waiting |
| `BlockCounts.CountedCallsAreTheDeposits` | pubchain/tx_inbound.go:152-199 | the deposits a block counts are, in order, those of its successful calls of the token contract, from a recoverable signer, whose arguments name a cached pool and whose id is not waiting then; any method counts |
| `BlockCounts.FeesAreThePayments` | pubchain/tx_inbound.go:201-218 | the fees a block counts are, in order and each once, those of its successful transactions with data to a pool that no uncounted call cuts off, with the id, pool and value of the transaction |
| `BlockCounts.FeesAddUp` | pubchain/tx_inbound.go:201-218 | for every id the fees of a block sum to the values of those payments |
| `BlockCounts.BlockInOrder` | pubchain/tx_inbound.go:178-221 | transactions are handled in order, each on the state those before it left |
| `BlockCounts.HeadCounts` | bridge/joltifyBridge.go:261-268 | a head counts the deposits and fees of its block, if it was fetched, and then expires at its own number |
| `BlockCounts.SelectorIgnored` | pubchain/tx_inbound.go:152-175 | data reads as a transfer iff some four bytes, whatever they are, precede arguments that decode as one |
| `BlockCounts.ApprovalCountsAsDeposit` | pubchain/tx_inbound.go:152-175 | a successful approval of a pool is counted as a deposit of the amount approved, though it is no transfer |
| `MatcherTheorems.AgeRuleIff` | pubchain/tx_inbound.go:284 | the wrapping subtraction agrees with the age rule exactly when the head is not below the entry or the wrap is within the timeout |
| `MatcherTheorems.HeadGoingBackExpires` | pubchain/tx_inbound.go:279-293 | a head one below an entry's block deletes the entry, whatever that block |
| `MatcherTheorems.ExpiryIsExactOverRuns` | pubchain/tx_inbound.go:279-307 | with heads that never decrease, no stored height exceeds the head and each expiry pass keeps exactly the entries at most 300 blocks old, in both maps |
| `Matcher.InboundMatcher.UpdateInboundTx` | pubchain/tx_inbound.go:69-93 | the in-place fee update is the machine's fee step, with the completed deposit returned |
| `Matcher.InboundMatcher.ProcessInboundTx` | pubchain/tx_inbound.go:95-150 | the deposit step, with existing ids, other tokens and malformed ids told apart |
| `Matcher.InboundMatcher.ProcessTx` | pubchain/tx_inbound.go:179-220 | one transaction has exactly the effects and releases of its events, including the fall-through after an accepted deposit |
| `Matcher.InboundMatcher.ProcessEachBlock` | pubchain/tx_inbound.go:178-221 | the loop over a block runs the block's events in order |
| `Matcher.InboundMatcher.CollectExpired` | pubchain/tx_inbound.go:280-288 | a pass over a map in any order collects exactly the ids whose age exceeds the timeout |
| `Matcher.InboundMatcher.DeleteExpired` | pubchain/tx_inbound.go:279-307 | both maps keep exactly the entries within the timeout |
| `Matcher.InboundMatcher.OnHead` | bridge/joltifyBridge.go:261-268 | a head processes its block, if it can be fetched, and then expires |
| `Hex.DecodeEncode` | pubchain/tx_inbound.go:142-146 | decoding a hexadecimal id gives back the bytes encoded |
| `Hex.DecodeIff` | pubchain/tx_inbound.go:142-146 | a text decodes to given bytes iff its lower case is their encoding |
| `RetryBags.RetryBag.AddItem` | pubchain/types.go:67-69 | a new entry under a fresh key; nothing stored is replaced, even under an equal hash |
| `RetryBags.RetryBag.PopItem` | pubchain/types.go:71-85 | nothing exactly when no positive hash is stored; otherwise one entry of largest hash leaves and only that |
| `RetryBags.RetryBag.Size` | pubchain/types.go:87-94 | counts the entries |
| `RetryBags.PopsDescend` | pubchain/types.go:71-85 | any pops take different entries in descending order and leave the others untouched and no larger; as many pops as entries empty the bag in a permutation of its keys |
| `InboundFlow.StepKeepsRequests` | bridge/joltifyBridge.go:311-337 | a handler moves requests between retry bag, channel, status check, confirmed and dropped, and only a release adds one |
| `Ownership.EveryRequestInOnePlace` | bridge/joltifyBridge.go:189-196 | over every run the requests released are exactly those in the five places together |
| `Ownership.LeavesOnlyByEvents` | bridge/joltifyBridge.go:311-337 | over every run the numbers confirmed and dropped are the numbers of successful status checks and failed signer checks; every other request is still in the cycle |
| `Ownership.EveryDepositAccountedFor` | pubchain/tx_inbound.go:69-307 | over every run each deposit accepted has expired, waits for its fee, or is a request in the retry bag, in the channel, under a status check, confirmed or dropped, once, with its id, depositor and amount |
| `InboundLaws.ChannelInOrder` | bridge/joltifyBridge.go:189-196 | over every run the channel is first in, first out: what it held, the releases of deposits and the retries are, in order, what the handler received and what it holds |
| `InboundLaws.BagBalance` | bridge/joltifyBridge.go:311-337 | over every run, as multisets: the bag gains the releases of late fees, the requests whose processing failed or whose submission went unreported and those whose check failed, and loses those picked for a retry |
| `InboundLaws.CheckBalance` | bridge/joltifyBridge.go:311-337 | over every run a check starts, with the empty index, for each request found recorded and, with its own, for each submission reported, and one leaves with each result |
| `InboundLaws.EndsOverRuns` | bridge/joltifyBridge.go:311-337 | confirmed are exactly the requests of successful checks, dropped those of failed signer checks |
| `InboundLaws.NumbersInPlaces` | bridge/joltifyBridge.go:311-337 | the numbers in channel, bag and checks after every run, from releases, events and answers alone |
| `InboundLaws.FailedCheckRefillsBag` | bridge/joltifyBridge.go:327-332 | a check that fails puts exactly its request back into the bag and changes nothing else |
| `InboundLaws.ChainOverRuns` | joltifybridge/mint.go:43-70 | over every run each submission taken, with the index of its request and the sequence asked for, is landed or in flight, once; the records are those landed, in order; an account's sequence counts its transactions |
| `InboundLaws.NeverStuck` | bridge/joltifyBridge.go:189-196 | the handler takes any answer, a check can fail at any time and succeed once its index is recorded, and a block has a pick unless a positive index meets a full channel |
| `Landing.LateLandingsHarmlessIff` | joltifybridge/mint.go:35-70 | whatever transactions in flight still land, in any order, nothing is recorded twice, iff no live one is for what is recorded and any two live ones for one thing carry the same account and number |
| `Submissions.NeverCanMintTwiceIff` | joltifybridge/mint.go:43-70 | over every run, with no trust in any answer: at no moment can the submissions in flight come to mint an index twice, iff no request is submitted whose index is on the chain, or while a submission for it with another account or sequence can still land |
| `Submissions.HonestRiskIff` | joltifybridge/mint.go:35-47 | over runs with truthful queries and lookups that condition fails only by submitting across accounts, since the account is queried before the lookup |
| `Submissions.OnePoolMintsOnce` | joltifybridge/mint.go:35-47 | while one pool signs and queries and lookups are truthful, no index can come to be minted twice, however late submissions land |
| `DoubleMints.MissedLookupMintsTwice` | joltifybridge/validator.go:105-115 | a run from the start, fee and deposit included, in which a failed lookup query, read as not there, mints an index twice |
| `DoubleMints.RotationMintsTwice` | joltifybridge/mint.go:24-70 | a run from the start with truthful queries and lookups in which a rotation between two submissions mints an index twice |
| `MintSafety.MintedWithinDeposits` | joltifybridge/mint.go:43-70 | while nothing is minted twice the amounts minted sum to at most the transfers observed and what other calls counted as deposits name |
| `MintSafety.MintSafetyOverRuns` | joltifybridge/mint.go:22-71 | over every run that submits nothing whose index is on the chain or for which another submission can still land: no depositor and transaction id is minted twice, each mint pays the signer of a counted call the amount it names, the total minted stays within the transfers plus the other calls counted, of which there are none iff the run counts only transfers, and confirmed requests are on the chain |
| `MintSafety.HonestRunsMintSafely` | joltifybridge/mint.go:35-47 | from the start, truthful runs can never mint twice iff they never submit across accounts, so always with one signing account, and then the run is one of those above |
| `MintSafety.RefusedIffMinted` | pubchain/types.go:42-45 | where the hash does not collide on the requests at hand a lookup refuses a request iff that depositor's transaction id is minted |
| `MintSafety.SeenAreCounted` | pubchain/tx_inbound.go:188-199 | over every run the ids observed are exactly those of the calls counted |
| `MintSafety.SeenAreTransfersIff` | pubchain/tx_inbound.go:152-199 | every observed deposit is a transfer iff every call the run counts has the selector of transfer |
| `MintSafety.EitherOrderSameIndex` | pubchain/types.go:42-45 | deposit first or fee first, the released request has the same mint index |
| `InboundQueue.InboundQueue.AddItem` | pubchain/types.go:67-69 | a request in hand goes to the bag under its current hash; each object stays in one place |
| `InboundQueue.InboundQueue.PopItem` | pubchain/types.go:71-85 | the request of largest index leaves the bag into the handler's hand |
| `InboundQueue.InboundQueue.ReleaseToChannel` | pubchain/tx_inbound.go:147-148 | a released request becomes one new object at the end of the channel, with the height of its block |
| `InboundQueue.InboundQueue.ReleaseToBag` | pubchain/tx_inbound.go:212-217 | a released request becomes one new object in the bag, with height 0 |
| `InboundQueue.InboundQueue.ReleaseAll` | pubchain/tx_inbound.go:147-217 | a block's releases enter channel and bag in order, with their heights |
| `InboundSide.InboundSide.OnHead` | bridge/joltifyBridge.go:261-268 | a public head, matcher and queue together, is one step of the inbound machine; what it sends to the channel carries its number, what it puts into the bag height 0 |
| `InboundQueue.InboundQueue.OnJoltifyBlock` | bridge/joltifyBridge.go:189-196 | the popped request has its height reset in place and enters the channel; no other height changes, keys stay current and objects in one place |
| `InboundQueue.InboundQueue.ProcessInBound` | joltifybridge/mint.go:22-71 | error, empty index for a recorded request, or the request's own index, with a submission in flight only after an unseen lookup |
| `InboundQueue.InboundQueue.HandleInbound` | bridge/joltifyBridge.go:311-337 | the channel's receiver is one step of the machine on the objects |
| `InboundQueue.InboundQueue.CheckReturned` | bridge/joltifyBridge.go:327-335 | a failed status check puts the request back in the bag, a successful one confirms it |
| `Outbound.AcceptedIffPays` | joltifybridge/tx_outbound.go:49-86 | a message becomes a request iff it pays a cached pool exactly one JUSD and one JOLT coin, in either order, with enough JOLT; the request carries all its JUSD to its sender from the latest pool |
| `Outbound.RefusedFor` | joltifybridge/tx_outbound.go:21-86 | a message is refused iff it does not pay, and for the first check it fails |
| `Outbound.IntakeConservesValue` | joltifybridge/bridge.go:432-464 | over any transactions the JUSD of the requests made is the JUSD of the messages that pay, whatever ids and senders they share |
| `Outbound.RequestsAreThePayments` | joltifybridge/bridge.go:432-464 | the requests of a transaction are, in order, one for each message that pays: under the transaction's id, to that message's sender, from the latest pool, for its JUSD |
| `OutboundFlow.StepKeepsRequests` | bridge/joltifyBridge.go:339-370 | a handler moves numbered requests between retry bag, channel, status check, sent and lost, and only intake adds some, under new numbers |
| `OutboundFlow.EveryRequestInOnePlace` | bridge/joltifyBridge.go:270-277 | over every run the requests made, each under the number of its intake, are exactly those in the five places together |
| `OutboundFlow.LeavesOnlyByEvents` | bridge/joltifyBridge.go:339-370 | over every run the numbers sent and lost are the numbers of successful receipts, and of failed signer checks and receipts never found |
| `OutboundLaws.ChannelInOrder` | bridge/joltifyBridge.go:270-277 | over every run the channel is first in, first out |
| `OutboundLaws.BagBalance` | bridge/joltifyBridge.go:339-370 | over every run, as multisets: the bag gains what paying messages ask for, requests whose sending failed or went unreported and those with a receipt other than success, and loses those picked for a retry |
| `OutboundLaws.CheckBalance` | bridge/joltifyBridge.go:352-370 | over every run a check starts for each transfer reported sent and leaves with each result |
| `OutboundLaws.EndsOverRuns` | bridge/joltifyBridge.go:339-370 | sent are exactly the requests with a receipt of success, lost those of failed signer checks and those whose receipt was never found |
| `OutboundLaws.NumbersInPlaces` | bridge/joltifyBridge.go:339-370 | the numbers in channel, bag and checks after every run, from events and answers alone |
| `OutboundLaws.ReceiptDecides` | pubchain/tx_inbound.go:520-549 | receipt status 1 counts the request as sent, any other status puts exactly it back into the bag, no receipt loses it |
| `OutboundLaws.ChainOverRuns` | pubchain/tx_send.go:71-92 | over every run each transfer taken, with the nonce asked for, is executed or in flight, once; those executed are those landed, in order; an account's nonce counts its transactions |
| `OutboundLaws.NeverStuck` | bridge/joltifyBridge.go:339-370 | intake and handler take anything, a check ends with any receipt, with success once the request is paid, and any request in the bag can be retried while the channel has room |
| `Payments.NeverCanPayTwiceIff` | pubchain/tx_send.go:71-92 | over every run, with no trust in any answer: at no moment can the transfers in flight come to pay one request twice, iff none is sent for a request that is paid, or while a transfer for it with another account or nonce can still be executed |
| `Payments.FreshNoncesRiskIff` | pubchain/tx_send.go:29-36 | with nonces that count pending transfers, that condition holds iff no request is sent while it is paid or while any earlier transfer for it can still be executed |
| `Payments.PaymentSafetyOverRuns` | pubchain/tx_send.go:71-92 | over every such run from the start no request is paid twice, every payment is for a request made and goes, with all its JUSD, to the sender of a paying message, what counts as sent is paid, and the total paid out is at most the JUSD paid in |
| `Payments.RefusedSendPaysTwice` | pubchain/tx_send.go:77-92 | a run from an intake, with fresh nonces, in which a send that failed for the node alone pays the request twice |
| `EventLoop.SentFromIntakePool` | joltifybridge/tx_outbound.go:77-81 | over every run of the event loop a request, wherever it is, names as sender the pool that was latest at its intake |
| `EventLoop.SenderSignsIff` | pubchain/tx_send.go:29-36 | the sender a transfer names is its signer iff the latest pool then has the address of the latest pool at the intake of the request |
| `EventRuns.RotationChangesSigner` | pubchain/tx_send.go:29-36 | a run from the start in which the pools rotate between intake and sending, so that the transfer names one pool and another signs it |
| `OutboundQueue.HashOfText` | joltifybridge/types.go:156-160 | the hash is that of receiver, pool, id and the height without its sign |
| `OutboundQueue.HashChangesWithHeight` | joltifybridge/types.go:156-160 | where the hash does not collide on the two texts, resetting a height changes the hash a request is stored under unless the height stays the same |
| `OutboundQueue.OutboundQueue.AddItem` | joltifybridge/types.go:79-81 | a request in hand is stored under the hash of its present height |
| `OutboundQueue.OutboundQueue.PopItem` | joltifybridge/types.go:83-97 | a request whose present hash is largest leaves the bag; none iff no present hash is positive |
| `OutboundQueue.OutboundQueue.CheckOutBoundTx` | joltifybridge/bridge.go:451-463 | the loop over messages adds one new object, with the height of the block, for every message that pays, even when hashes coincide |
| `OutboundQueue.OutboundQueue.OnPublicHead` | bridge/joltifyBridge.go:270-277 | the request of largest hash has its height, and so its hash, changed only while no bag holds it; no other height changes and every stored key stays the current hash |
| `OutboundQueue.OutboundQueue.HandleOutbound` | bridge/joltifyBridge.go:339-352 | the channel's receiver is one step of the machine on the objects |
| `OutboundQueue.OutboundQueue.CheckReturned` | bridge/joltifyBridge.go:354-368 | only a transaction found to have failed returns to the bag; an unknown status loses the request |
| `Scheduler.MoveFundQueue.AddMoveFundItem` | joltifybridge/types.go:41-43 | stores a job under a height, replacing what was there |
| `Scheduler.MoveFundQueue.LeastHeight` | joltifybridge/types.go:47-54 | the scan finds the least stored height |
| `Scheduler.MoveFundQueue.PopMoveFundItem` | joltifybridge/types.go:63-77 | takes the job of least height, if there is one |
| `Scheduler.MoveFundQueue.PopMoveFundItemAfterBlock` | joltifybridge/types.go:46-61 | takes the job of least height once it is more than six blocks old in int64 arithmetic, and otherwise nothing |
| `Scheduler.Int64SubIff` | pubchain/tx_inbound.go:345-359 | the guard's difference is the one int64 congruent to the plain one modulo 2^64 |
| `Scheduler.PopAfterIff` | pubchain/tx_inbound.go:345-359 | a key is taken iff it is the least, below the sentinel of the scan, and more than six blocks old in int64 |
| `Scheduler.PopAfterIsOldest` | pubchain/tx_inbound.go:345-359 | within a run the int64 guard never wraps: what is taken is the least and older than six blocks, and when nothing is taken no job is |
| `Scheduler.PopsRise` | pubchain/tx_inbound.go:345-359 | over every run with rising heights the popped keys rise strictly |
| `Scheduler.FirstDrainWaits` | bridge/joltifyBridge.go:218-220 | the job of a pool just retired, while least, is popped exactly from six blocks later on |
| `Scheduler.NeverDrainedEarly` | bridge/joltifyBridge.go:218-220 | after any events whatever it has not been popped before six blocks later |
| `Scheduler.EveryJobAccountedFor` | bridge/joltifyBridge.go:224-247 | over any events the pools scheduled on a side are those waiting, observed empty, abandoned and overwritten |
| `Scheduler.NoJobLostIff` | pubchain/tx_inbound.go:324-326 | no job is lost iff no two jobs of the run meet under one height |
| `Scheduler.BlockLosesIff` | bridge/joltifyBridge.go:217-247 | a Joltify block overwrites a job iff it rotates right after a block that put that job back |
| `Scheduler.HeadPeriodLosesIff` | bridge/joltifyBridge.go:216-308 | between two public heads the jobs overwritten are all but the last of the pools retired, and a job put back at the head before if that is one lower |
| `Rotation.CachesAgree` | bridge/joltifyBridge.go:198-222 | both chain instances cache the same pools after any answers |
| `Rotation.NeedsUpdateIff` | bridge/helper.go:9-36 | a full cache needs an update iff both keys convert and it does not show the pair |
| `Rotation.WindowsHoldLastTwo` | bridge/joltifyBridge.go:198-222 | over any answers each window holds the last two pools pushed into it: both of the first pair, latest first, and then the latest of every pair that differs |
| `Rotation.RotationHasPrevious` | bridge/joltifyBridge.go:211-217 | a rotation always finds a previous pool to compare with |
| `Rotation.TracksIffFollows` | bridge/helper.go:9-36 | after an answer the caches equal the chain's pair iff the pair repeated or rotated once; then no update is needed, and the pool scheduled is the one that left the cache unless it is the new latest |
| `Rotation.MissedRotationLosesTrack` | bridge/joltifyBridge.go:211-217 | after two rotations between two answers the caches keep a pool that left the pair |
| `Rotation.LivePoolRetiredIff` | bridge/joltifyBridge.go:216-221 | a rotation schedules a pool still in the pair iff the pair held it twice |
| `Rotation.SecondAnswerRepairsIff` | bridge/joltifyBridge.go:200-209 | the first fill is reversed and schedules nothing; exactly which second answers repair it |
| `Rotation.EarlyRotationKeepsReversal` | bridge/joltifyBridge.go:200-209 | a rotation right after the first fill leaves the pool it pushed out cached |
| `Rotation.RotationTracking` | bridge/joltifyBridge.go:198-222 | over any legal answers both caches follow the pair and the pools scheduled are those that left it, once for each exit |
| `Rotation.RotationTrackingFromStart` | bridge/joltifyBridge.go:198-222 | the same from empty caches, when the first pair is answered twice |
| `Draining.RetiredPoolsAccountedFor` | bridge/joltifyBridge.go:198-308 | over any interleaving of both chains' blocks each retired pool is scheduled on both chains and accounted for on each |
| `Draining.EveryExitIsDrained` | bridge/joltifyBridge.go:198-308 | every pool that leaves the pair is, on each chain and once for each exit, waiting, observed empty, abandoned or overwritten |
| `Draining.DrainsOverRuns` | bridge/joltifyBridge.go:179-247 | over every run the jobs taken are, in order, those due: on the Joltify chain at the blocks with two pools that find the caches filled, and at no others; on the public chain at every head |
| `Draining.FatesOverRuns` | bridge/joltifyBridge.go:229-308 | over every run the pools observed empty and abandoned are, on either chain, those whose job a drain took with that outcome |
| `Draining.OrderedOverRuns` | bridge/joltifyBridge.go:224-308 | over every run of both chains with rising heights the keys popped on either chain rise strictly and lie below all stored ones |
| `Draining.LossesOverRuns` | bridge/joltifyBridge.go:216-308 | over every run with rising heights the jobs overwritten are, on the Joltify side, those put back in the block right before a rotation and, on the public side, those stored one below the last head when a rotation comes |
| `LivePools.WaitingIffCanDrain` | bridge/joltifyBridge.go:224-308 | a job waits for a pool of the pair iff some continuation that only repeats the pair drains a pool of the pair |
| `LivePools.LiveIsSafeIff` | bridge/joltifyBridge.go:211-308 | over every regular run neither it nor a continuation that only repeats the pair takes a drain job of a pool of the pair, on either chain, iff no pool comes back into the pair while a job of its earlier exit waits |
| `DrainRuns.ReturnedPoolIsDrained` | bridge/joltifyBridge.go:211-247 | a run from empty caches in which the drain job of a pool of the pair is taken |
| `DrainRuns.RotationAfterPutBackLosesJob` | bridge/joltifyBridge.go:198-308 | a run from empty caches that loses a retired pool's job on both chains |
| `PoolKeeper.PoolKeeper.NeedUpdate` | bridge/helper.go:9-36 | the two-step loop and the reversed comparison decide whether the cache differs from the answer |
| `PoolKeeper.PoolKeeper.UpdatePubPool` | pubchain/tx_inbound.go:224-256 | shifts the window, and leaves it for a key that does not convert |
| `PoolKeeper.PoolKeeper.UpdateJoltPool` | joltifybridge/tx_outbound.go:123-153 | shifts the window and returns the pool that was first |
| `PoolKeeper.PoolKeeper.FollowChain` | bridge/joltifyBridge.go:179-222 | fill, rotation or neither, with a retired pool scheduled on both chains under their own heights |
| `PoolKeeper.PoolKeeper.DrainJolt` | bridge/joltifyBridge.go:225-247 | the oldest job is taken and put back unless finished with |
| `PoolKeeper.PoolKeeper.DrainPub` | bridge/joltifyBridge.go:280-308 | the same on the public chain |
| `PoolKeeper.PoolKeeper.OnJoltifyBlock` | bridge/joltifyBridge.go:173-247 | a Joltify block is one step of the machine of caches and jobs |
| `PoolKeeper.PoolKeeper.OnPublicHead` | bridge/joltifyBridge.go:261-308 | a public head is one step of it |
| `LoopLaws.BlockRetriesLargest` | bridge/joltifyBridge.go:179-196 | a Joltify block with two pools moves one inbound request of largest positive index from the bag to the end of the channel, or nothing iff none is positive; any other block leaves the inbound side alone |
| `LoopLaws.InboundOverRuns` | bridge/joltifyBridge.go:173-337 | over every run of the event loop the inbound channel is first in, first out, fed by the releases of heads and the retries of blocks, and the bag balances |
| `LoopLaws.RetriesAreWork` | bridge/joltifyBridge.go:189-196 | over every run the retries are as many as the blocks with two pools that found a request of positive index |
| `LoopLaws.OutboundOverRuns` | bridge/joltifyBridge.go:249-277 | the same for the outbound side, fed by what the paying messages of each transaction ask for and the retries of heads |
| `LoopLaws.PoolsOverRuns` | bridge/joltifyBridge.go:173-308 | over every run the caches are those the answers of the blocks lead to, and the drain jobs taken those due at blocks and heads |
| `LoopLaws.KnowsThePair` | pubchain/tx_inbound.go:268-277 | when the chain's pair, once answered twice, only repeats or rotates, the bridge always knows exactly the two pools of the pair: payments to either count, and requests are paid from the latest |
| `LoopLaws.NeverStuck` | bridge/joltifyBridge.go:173-370 | the loop takes any transaction, any answer for the head of a channel signed by the latest pool, and any Joltify block unless a retry meets a full channel |
| `LoopRuns.RotationMintsTwice` | bridge/joltifyBridge.go:173-337 | a run of the whole loop from the start, every answer true, that mints a deposit twice: its pool is rotated out with a submission in flight and the rotating block retries the request |
| `EventLoop.PartsAreRuns` | bridge/joltifyBridge.go:154-374 | over every run of the event loop the caches, the inbound and the outbound side are legal runs of their machines, with the pools of the moment where those leave them open |
| `EventLoop.NoNilPool` | bridge/joltifyBridge.go:286-342 | over every run a handler that reads the latest pool, for a request or a drain, finds one, and the same in both caches |
| `EventLoop.NoRotationMintsOnce` | joltifybridge/mint.go:22-71 | over every run of the event loop with truthful queries and lookups, while the latest pool is the same whenever a mint is signed, no index can come to be minted twice |
| `DrainOutcomes.JobEndsIff` | bridge/joltifyBridge.go:229-247 | on either chain the job taken is abandoned iff the node is no signer or cannot tell, finished iff a signer observes an empty account, and otherwise stored again under the present height |
| `Drain.MoveFundsIsSafe` | pubchain/tx_inbound.go:450-508 | exactly when a round builds which transfer: all tokens first, and BNB only without tokens, for more than dust and leaving its gas; empty is reported exactly for no tokens and at most dust, an error exactly for a rejected transfer or a missing answer |
| `Drain.DrainableEmptiesInTwoRounds` | pubchain/tx_inbound.go:450-508 | a drainable account is reported empty after at most two transfers |
| `Drain.DrainTerminatesIff` | pubchain/tx_inbound.go:361-508 | with fixed costs and sends that succeed when affordable, the rounds ever report empty iff the token transfer is affordable and the BNB then left is dust or worth a sweep that leaves only dust |
| `Drain.DustAndReserveNeverDrain` | pubchain/tx_inbound.go:384-400 | an account with dust and the gas reserve exactly is never reported empty |
| `DecRounding.ChopIsNearestEven` | pubchain/tx_inbound.go:386-389 | the SDK's rounding gives the nearest integer, the even one of two, and nothing else does |
| `DecRounding.RatioClosedForm` | pubchain/tx_inbound.go:384-389 | the gas reserve is half as much again in exact half-even rounding, at least the gas and at most twice it |
| `DecRounding.GasWantedCovers` | joltifybridge/bridge.go:321-323 | the gas wanted is the same product, covers the gas simulated, and is missing exactly beyond int64 |
| `Proposals.ProposalQueue.PrepareTssPool` | joltifybridge/bridge.go:351-377 | appends a proposal, or fails and leaves the queue when the account query or the height does not come through |
| `Proposals.ProposalQueue.CheckAndUpdatePool` | joltifybridge/bridge.go:386-430 | only the head is looked at, taken at its own height once its transaction is built, whether or not the chain takes it |
| `Proposals.FirstInFirstOut` | joltifybridge/bridge.go:366-425 | over any run what was prepared is, in order, what was taken and what waits |
| `Proposals.TakenOnTime` | joltifybridge/bridge.go:394-425 | every proposal taken was taken at its own height |
| `Proposals.HeadLeavesIff` | joltifybridge/bridge.go:386-430 | over a run of rising heights the head leaves iff a block at its height gets its transaction built; once that height has passed nothing behind it is ever taken |
| `Signature.SerializeSig` | misc/helper.go:60-104 | the byte buffer written copy by copy; nothing exactly when a field does not decode |
| `Signature.MakeSignature` | misc/helper.go:107-117 | the byte buffer written copy by copy |
| `Signature.FoldIsLow` | misc/helper.go:79-83 | S comes out in the lower half, as the smaller of itself and its negative |
| `Signature.FoldIsCongruent` | misc/helper.go:79-83 | for every S, in the group or not, the lower half stays and any other is folded to its difference from the order |
| `Signature.SerializedAt` | misc/helper.go:85-104 | for every R, S and V the buffer holds, each byte: R ends at 32, S at 64, V at 65, padded with zeros, the later over the earlier |
| `Signature.MadeAt` | misc/helper.go:107-117 | the same for the other writer, with the low byte of V last |
| `Signature.SerializeRoundTrip` | misc/helper.go:79-97 | reading the 65 bytes gives V modulo 256, and R and the smaller of S and N - S iff the bytes of V beyond its last agree with theirs; always so for a V of one byte |
| `Signature.SerializedReads` | misc/helper.go:85-97 | for every V the buffer holds, R and S as one numeral come out with their last bytes replaced by those of V beyond its last |
| `Signature.TwoByteVBreaksS` | misc/helper.go:94-97 | a V of two bytes replaces the last byte of S |
| `Signature.ShortFormIsPrefix` | misc/helper.go:91-103 | the 64-byte form is the 65-byte form without V |
| `Signature.WritersAgreeIffLowS` | misc/helper.go:60-117 | both writers agree iff S is in the lower half |
| `Signature.MakeSignatureInjective` | misc/helper.go:107-117 | equal bytes iff equal R, S and V modulo 256 |
| `Signature.RecoverIffValid` | misc/helper.go:131-155 | a recovery id results exactly for the bare, Homestead and EIP-155 values, and is the one they encode |
| `Signature.RecoverIsInverse` | misc/helper.go:131-155 | for every chain id and value: what reads as 0 or 1 stays, 27 and 28 give 0 and 1, and any other result encodes the value modulo 2^64 |
| `Signature.RecoverProtectedIff` | misc/helper.go:140-147 | beyond uint64 an EIP-155 value is inverted iff its low 64 bits are not 0 or 1 |
| `Signature.RecoveredSignatureEndsInId` | pubchain/tx_inbound.go:30-33 | the rebuilt signature reads as R, S and the recovery id for every encoding of it |

## Left out

- MintSafetyOverRuns: is about one node; submissions of other nodes and the chain's own check of indexes are not modelled, and a successful status check is taken to be truthful.
- PaymentSafetyOverRuns: is about one node, and takes a receipt of success to be truthful.
- LiveIsSafeIff: heights stay below an eighth of the largest int64, so that a continuation has room.
- EveryRequestInOnePlace: leaves heights out of the multisets; they are fields of the request objects in the queue classes.
- DrainTerminatesIff: fixes the gas cost and lets no one else pay into the account.
- RotationTracking: takes different keys to have different Joltify addresses.
- Progress: a send to a full channel blocks its only receiver, so a step that sends needs room; that requests already minted ever leave the retry cycle is not true of the code and not claimed.
- The classes of the Joltify block and public head handlers are one for each state they touch (`InboundQueue`, `PoolKeeper`, `InboundSide`, `OutboundQueue`); the event loop that joins them is a machine on values.
- Concurrent writes of a status check during another handler: each end of a check is a step of its own.
- Duplicates reported as already known, beyond being accepted; fields of the transfers other than receiver, amount, sender and signer.
- Denominations of inbound coins, which are constants in the source, and amounts that are negative.
- Building, encoding, signing and broadcasting of transactions, ABI decoding, public key recovery and address derivation: their results are parameters.
- gRPC, websocket, HTTP, metrics, logging, start-up and the validator set.

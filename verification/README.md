# Verified model of the content-rights parachain

The CCRMS parachain sells rights to digital content: subscriptions with automatic renewal, pay-per-view
packs and permanent ownership, paid in a fungible currency and split by royalties. Other chains buy rights
through an escrowed request protocol, and check rights through storage proofs or an EVM precompile. This
project models that behaviour in Dafny 4.11 and proves its central promises for every input and every run.

`dafny verify dfyconfig.toml` checks everything.

## How the model is built

- `Ledger` is the rights chain as a value: its storage, a function for each extrinsic and for the block hook,
  and runs of them from genesis in any order, with arbitrary activity of other pallets in between.
- `ContentRights.Pallet` is the pallet in its own form: storage maps updated in place, the three loops of the
  source, storage layers rolled back on failure. Each method is proved to compute the `Ledger` function, with
  the same errors, so every theorem about `Ledger` is one about the pallet.
- The storage includes a log of what the pallet reports as events; "history" below means that log.
- `Effects` names what a step can do to rights, apart from the money it moves; invariants are proved once per
  effect (`Scheduler`, `Rights`, `Nesting`, `Owners`), joined in `Runs`, and stated for runs in `Theorems`,
  `Payments` and `Authority`.
- `Acceptance` says when a call succeeds and with which error it fails, by a list of conditions per call
  (`Checking`), and that accepted settings take effect; `Escrow` does the same for the client.
- `RightsClient`, `Escrow`, `Wire` and `Protocol` are the two-chain escrow protocol, with `Ledger` as the
  remote chain. `RelayRoots` and `RightsVerifier` are the proof-based verifier and the precompile's
  `checkAccess`.

Premises, which appear in the model and nowhere else:

- Block numbers are u32, rise by one with the hook run in each block, and stay below `u32::MAX`;
  `MinAutoRenewPeriod` and `MaxRelayRoots` are at least 1.
- A failing extrinsic leaves storage unchanged (a storage layer of the runtime).
- A currency transfer fails without effect or moves exactly the amount; whether it is accepted is an arbitrary
  decision (`Policy`) depending on balances, parties and amount. NFT mints and burns may fail.
- Between the chains a dispatch succeeds or is rolled back, and messages and reports may be delayed, reordered
  or lost, but not forged, altered or duplicated.
- An answer accepted by the trie reader is what the root commits to, whatever proof nodes it was given.

Two promises turned out to be false of the code as commonly put; both are kept as the code has them:

- "Pay-per-view access while views bought exceed views used" fails once a view pack has been filled to
  2^32 - 1 and its views have been used up: `LostViews.BoughtViewsCanBeLost` gives the run.
  `Theorems.ViewAccessIff` says exactly when the rule holds in a reachable state,
  `Theorems.ViewsRefineHistory` exactly when stored and bought views agree, and
  `Theorems.PurchaseAddsAllIff` gives the guard a buyer can check beforehand: the view pack has room.
- "The escrow account covers all pending escrows" fails when a settlement leaves less than the existential
  deposit: `Protocol.DustEscrowCanBeLost` gives the run, `Escrow.SettlementCoversIff` the exact condition for
  a settlement, and `Protocol.EscrowAlwaysCovered` the guarantee when no dust escrow is accepted.

## Model

| member | source | states |
|---|---|---|
| Theorems.NoStarvation | pallets/content-rights/src/lib.rs:328-426 | In every reachable state every pair with auto-renewal on has an entry in a future bucket, at most 99 blocks after its expiry or after the block following its enabling; so no enabled subscription stays overdue longer. |
| Theorems.DecidedInTime | pallets/content-rights/src/lib.rs:328-426 | Over any two moments of a run: once 99 blocks have passed since the expiry of an enabled subscription and since the block after its enabling, it has been extended or switched off, or was switched on anew. |
| Theorems.TimePasses | pallets/content-rights/src/lib.rs:322-331 | The block number of a run is the number of its blocks, and nothing else moves it. |
| Theorems.MidHookConsistent | pallets/content-rights/src/lib.rs:338-420 | After any number of entries of any block's bucket, every enabled pair is in a future bucket before its deadline or still unprocessed, and the missing-subscription and missing-content branches cannot be taken. |
| Theorems.RenewalOutcome | pallets/content-rights/src/lib.rs:338-420 | Every entry of every block's bucket at its turn: a pair no longer enabled changes nothing; an enabled one is charged and extended by a period exactly if expired and its payment is accepted, and stays enabled exactly if it need not or did pay and a block of its next window has room. |
| Theorems.SchedulerConsistent | pallets/content-rights/src/lib.rs:112-135 | In every reachable state the index, the subscription flag, the content period and the last switch on the log agree, no bucket up to the current block holds an entry, and no bucket exceeds 10. |
| Scheduler.RenewEntryKeepsConsistent | pallets/content-rights/src/lib.rs:338-420 | One iteration of the hook's loop keeps the scheduler invariant with the entry moved out of the unprocessed tail, in all branches. |
| Scheduler.EnableKeepsConsistent | pallets/content-rights/src/lib.rs:1253-1295 | Enabling keeps the scheduler invariant, including the deadline of the new entry. |
| Scheduler.OpenBlockKeepsConsistent | pallets/content-rights/src/lib.rs:333 | Taking the current bucket off the queue leaves every enabled pair in a future bucket or among the taken entries. |
| Theorems.ChargeSpacing | pallets/content-rights/src/lib.rs:869-897 | Over any run any two charges of one content and holder, first, manual, cross-chain or automatic, are at least one period apart. |
| Theorems.ExpiryNeverDecreases | pallets/content-rights/src/lib.rs:389-394 | Between any two moments of a run no subscription disappears and no expiry decreases. |
| RenewalQueue.EnqueueIsFirstFit | pallets/content-rights/src/lib.rs:637-658 | Enqueueing succeeds exactly when some block of the 100-block window accepts the pair, adds it at the first such block, and changes no other bucket. |
| RenewalQueue.ReEnqueueIsNoOp | pallets/content-rights/src/lib.rs:647-652 | After any other enqueues and any processed blocks before the new start, enqueueing a placed pair again from any start up to its slot finds the same slot and changes nothing. |
| ContentRights.SearchStopsInRange | pallets/content-rights/src/lib.rs:645-655 | The saturating search stops at exactly `at + offset`: a bucket that accepts the pair is reached before saturation. |
| Theorems.AccessRefinesHistory | pallets/content-rights/src/lib.rs:692-712 | In every reachable state `access_rights` is the decision computed from the whole log: ownership bought or received and not transferred, else some payment whose period covers now, else views bought beyond those used and clipped. |
| Theorems.NoRightsToUnknown | pallets/content-rights/src/lib.rs:724-726 | In no reachable state does anybody hold a right to an unknown content. |
| Theorems.ViewsRefineHistory | pallets/content-rights/src/lib.rs:536-538 | Stored views never exceed views bought less views used, and equal them if and only if that balance never passed 2^32 - 1. |
| Theorems.ViewAccessIff | pallets/content-rights/src/lib.rs:706-712 | In every reachable state "views remain exactly while bought exceed used" holds of a pair if and only if some of its views remain or its balance never passed 2^32 - 1. |
| Theorems.PurchaseAddsAllIff | pallets/content-rights/src/lib.rs:536-552 | A purchase adds all the views it charges for if and only if the view pack has room for them, and touches no other pack. |
| Histories.ClippedIffPassed | pallets/content-rights/src/lib.rs:537 | Views are lost to saturation exactly when bought less used once passed 2^32 - 1. |
| LostViews.BoughtViewsCanBeLost | pallets/content-rights/src/lib.rs:536-538 | A concrete run after which more views were bought than used and there is no access. |
| Rights.NewChargeIsSpaced | pallets/content-rights/src/lib.rs:876-888 | A charge allowed by the expiry check comes at least one period after every earlier charge on the log. |
| Theorems.NestingBijection | pallets/content-rights/src/lib.rs:498-503 | In every reachable state `Parent` entries and records of rights correspond one to one; child items hang under item 0 of their collection, are numbered in [1, NextItemId) and are never minted twice; distinct contents have distinct collections. |
| Nesting.RecordAddedNested | pallets/content-rights/src/lib.rs:453-513 | Minting a child for a new record keeps the bijection, the numbering and the uniqueness of minted ids. |
| Nesting.RecordRemovedNested | pallets/content-rights/src/lib.rs:566-577 | Burning a record's child keeps the bijection. |
| Theorems.OwnershipConserved | pallets/content-rights/src/lib.rs:932-959 | In every reachable state a content has exactly as many owners as it had ownership sales. |
| Theorems.OwnershipAuthority | pallets/content-rights/src/lib.rs:1200-1210 | An owner's record disappears only in a transfer of that content signed by that owner. |
| Owners.TransferKeepsCount | pallets/content-rights/src/lib.rs:1145-1178 | A transfer changes one owner into another and keeps the count. |
| Authority.TransferMovesOwnership | pallets/content-rights/src/lib.rs:1138-1187 | A successful transfer moves the signer's ownership to the named account, nobody else's, and no money. |
| Authority.StepAuthority | pallets/content-rights/src/lib.rs:1403-1440 | Over any step views are taken one at a time and only by the viewer or the content's meter, auto-renewal is switched on only by the subscriber, and the royalty splits and the meter of a content change only at its creator's call and to that call's argument. |
| Authority.RegistrationStores | pallets/content-rights/src/lib.rs:750-808 | In every reachable state a registered content is stored as given under an id and a collection that no content, right or nested item uses yet; only the counters change besides, and the next id and collection are again unused. |
| Authority.ContentsNeverChange | pallets/content-rights/src/lib.rs:792-805 | Between any two moments of a run a content's creator, prices, period and collection stay the same. |
| Royalties.PaymentExact | pallets/content-rights/src/lib.rs:594-635 | A successful payment takes exactly the amount from the payer and gives every account exactly its shares and the creator the remainder, whatever accounts coincide; issuance is unchanged. |
| Royalties.PaymentAcceptedIff | pallets/content-rights/src/lib.rs:594-635 | A payment succeeds exactly if each positive share and then a positive remainder can be transferred in turn on the balances left by the earlier ones; its only error is a refused transfer. |
| Royalties.WillingPaymentIff | pallets/content-rights/src/lib.rs:608-634 | With a currency that refuses nothing a payment succeeds exactly if the payer holds the least balance its transfers need; the amount always suffices, also for splits of exactly 10,000 points, and is necessary unless the payer is itself paid. |
| Royalties.RefusedTransferFails | pallets/content-rights/src/lib.rs:616-634 | A payment any of whose transfers the currency refuses fails. |
| Royalties.NeverOverdistributed | pallets/content-rights/src/lib.rs:608-628 | The shares never exceed the amount, even when the multiplication saturates. |
| Royalties.ShareWithinOneUnit | pallets/content-rights/src/lib.rs:610-612 | A share that does not clip is less than one unit below its exact value. |
| Royalties.CreatorSurplus | pallets/content-rights/src/lib.rs:627-631 | Without clipping the creator's remainder exceeds its exact part by less than one unit per split. |
| Royalties.TotalBasisPoints | pallets/content-rights/src/lib.rs:1337 | The u16 total of accepted splits never overflows and is at most 10,000. |
| Royalties.ValidateSplits | pallets/content-rights/src/lib.rs:1382-1384 | The u32 total never overflows and accepts exactly the splits summing to at most 10,000. |
| Payments.HookIsExactBatch | pallets/content-rights/src/lib.rs:376-419 | In any block of any run the hook charges exactly the due entries that at their turn are enabled, expired and accepted by the currency: the log is continued by one charge for each, paid by its own holder, every balance changes by exactly the sum of their full prices split by royalties, and issuance is kept. |
| Payments.HookLeavesOthersAlone | pallets/content-rights/src/lib.rs:333-338 | The hook leaves every pair outside the due bucket alone: its subscription, its flag, its place in the auto-renew index and its charges on the log. |
| Payments.CallsPayExactly | pallets/content-rights/src/lib.rs:823-1132 | In every reachable state a successful purchase charges its signer exactly the price of what it buys, split by royalties, and keeps issuance; other calls move no money. |
| Acceptance.CallDecided | pallets/content-rights/src/lib.rs:733-1441 | Every extrinsic succeeds exactly if all its conditions hold and otherwise fails with the error of the first that does not, in the source's order: existence, rights held, accepted payment, item ids left, room in the queue, signer. |
| Acceptance.CallsDecided | pallets/content-rights/src/lib.rs:559-577 | The same in every reachable state, where the checks for an empty view pack and for the content of a view pack never refuse a viewer. |
| Acceptance.WillingPurchaseIff | pallets/content-rights/src/lib.rs:823-1132 | In every reachable state, with a willing currency and NFT pallet and the price at hand, a purchase of an existing content succeeds exactly if the beneficiary is entitled to it (no such right yet, or an expired subscription, or a positive number of views) and an item id is left where one is minted. |
| Acceptance.SwitchIff | pallets/content-rights/src/lib.rs:1253-1321 | In every reachable state auto-renewal can be switched on exactly if it is off, the period is long enough and the queue window has room, and off exactly if it is on; flag, index and log then say so and the subscription is otherwise unchanged. |
| Acceptance.SplitsTakeEffect | pallets/content-rights/src/lib.rs:1372-1396 | Splits are accepted exactly from the creator, at most 10 of them and at most 10,000 points, and are then in force for that content and no other. |
| Acceptance.MeterTakesEffect | pallets/content-rights/src/lib.rs:1405-1423 | A meter is set or cleared exactly by the creator, and is then in force for that content and no other. |
| Acceptance.LastSettingsInForce | pallets/content-rights/src/lib.rs:1372-1423 | At every moment of every run the splits and the meter of a content are those its creator last set successfully, and none before. |
| Theorems.LocalRunsAreCrossChainRuns | pallets/content-rights/src/lib.rs:978-1247 | Replacing every local call of a run by its cross-chain form with the signer as beneficiary changes no call's outcome and neither storage nor balances. At `Ledger` level both forms share one function; that the source's two bodies do is what the separately written `ContentRights.Pallet` methods prove. |
| Runs.AlwaysSound | pallets/content-rights/src/lib.rs:733-1441 | Every extrinsic, block and outside activity keeps all invariants of the chain. |
| ContentRights.Pallet.constructor | pallets/content-rights/src/lib.rs:65-157 | Fresh storage is a genesis state. |
| ContentRights.Pallet.TransferAmount | pallets/content-rights/src/lib.rs:676-690 | Moves exactly the amount or fails without effect. |
| ContentRights.Pallet.PayWithRoyalties | pallets/content-rights/src/lib.rs:594-635 | On success the balances are those of the specified payment and the number of splits is returned; on failure the first refused transfer's error is; at most one transfer per split is attempted. When that payment succeeds is `Royalties.PaymentAcceptedIff`. |
| ContentRights.Pallet.PayFor | pallets/content-rights/src/lib.rs:832 | Payment to the creator of a content by its royalty splits. |
| ContentRights.Pallet.EnqueueRenewal | pallets/content-rights/src/lib.rs:640-658 | Places the pair at the first fitting block and returns the offset, or reports a full window and changes nothing; reads at most 100 buckets. |
| ContentRights.Pallet.StopAutoRenew | pallets/content-rights/src/lib.rs:661-673 | Clears the flag and the index entry, whether or not the subscription exists. |
| ContentRights.Pallet.MintAndNestChild | pallets/content-rights/src/lib.rs:453-513 | Returns the counter's item id, nests it and advances the counter, or fails on overflow or refusal. |
| ContentRights.Pallet.BurnChild | pallets/content-rights/src/lib.rs:569-576 | Removes the nesting entry of the burnt item, or fails. |
| ContentRights.Pallet.RequeueOrStop | pallets/content-rights/src/lib.rs:353-362 | Queues the pair again, or switches auto-renewal off when no slot is free. |
| ContentRights.Pallet.ChargeInLayer | pallets/content-rights/src/lib.rs:376-399 | Charges and extends the subscription, or leaves storage exactly as it was even if some splits were already paid. |
| ContentRights.Pallet.ChargeAndRequeue | pallets/content-rights/src/lib.rs:386-419 | The due branch of the hook; the counted split payments are never fewer than the split transfers attempted and at most 10. |
| ContentRights.Pallet.ProcessEntry | pallets/content-rights/src/lib.rs:338-420 | One iteration of the hook's loop, in all branches, with the bounds on its work. |
| ContentRights.Pallet.OnInitialize | pallets/content-rights/src/lib.rs:328-426 | Processes exactly the current bucket, at most 10 entries; split payments are at least the transfers attempted and at most 10 per entry; at most 100 bucket reads per entry. |
| ContentRights.Pallet.BeginBlock | pallets/content-rights/src/lib.rs:322-331 | A block step of the run: at most 10 renewals and 100 split payments. |
| ContentRights.Pallet.RegisterContent | pallets/content-rights/src/lib.rs:739-818 | Allocates the content and collection ids or fails on overflow. |
| ContentRights.Pallet.Subscribe | pallets/content-rights/src/lib.rs:823-864 | Pays, mints and stores a subscription of one period, with the source's errors in its order. |
| ContentRights.Pallet.RenewSubscription | pallets/content-rights/src/lib.rs:869-897 | Extends an expired subscription by one period from now. |
| ContentRights.Pallet.DoPurchaseViews | pallets/content-rights/src/lib.rs:520-555 | Rejects zero views and overflowing prices, adds to an existing pack with saturation or starts one. |
| ContentRights.Pallet.DoConsumeView | pallets/content-rights/src/lib.rs:559-589 | Takes one view; with the last one burns the item and removes the view pack. |
| ContentRights.Pallet.ConsumeViewFor | pallets/content-rights/src/lib.rs:1429-1440 | Only the content's meter takes a viewer's view. |
| ContentRights.Pallet.PurchaseOwnership | pallets/content-rights/src/lib.rs:932-959 | Pays, mints and records ownership. |
| ContentRights.Pallet.XcmSubscribe | pallets/content-rights/src/lib.rs:989-1035 | The payer pays and the beneficiary gets the subscription. |
| ContentRights.Pallet.XcmRenewSubscription | pallets/content-rights/src/lib.rs:1040-1073 | The payer pays and the beneficiary's expired subscription is extended. |
| ContentRights.Pallet.XcmPurchaseOwnership | pallets/content-rights/src/lib.rs:1100-1132 | The payer pays and the beneficiary becomes owner. |
| ContentRights.Pallet.TransferOwnership | pallets/content-rights/src/lib.rs:1138-1187 | Burns the old owner's item, mints the new one and moves the record. |
| ContentRights.Pallet.XcmTransferOwnership | pallets/content-rights/src/lib.rs:1194-1247 | As the local transfer, refused unless the signer is the owner named. |
| ContentRights.Pallet.SwitchOn | pallets/content-rights/src/lib.rs:1267-1287 | Sets flag and index and queues at the later of expiry and the next block, or reports a full queue. |
| ContentRights.Pallet.EnableAutoRenew | pallets/content-rights/src/lib.rs:1253-1295 | Checks content, minimum period, subscription and flag in order, then switches on; when it succeeds and what then holds is `Acceptance.SwitchIff`. |
| ContentRights.Pallet.DisableAutoRenew | pallets/content-rights/src/lib.rs:1300-1321 | Clears flag and index; the queue entry stays to be dropped later. |
| ContentRights.Pallet.SetRoyaltySplits | pallets/content-rights/src/lib.rs:1372-1396 | Only the creator, and only splits summing to at most 10,000, which are then stored (`Acceptance.SplitsTakeEffect`). |
| ContentRights.Pallet.SetMeter | pallets/content-rights/src/lib.rs:1405-1423 | Only the creator sets or clears the meter, which then is in force (`Acceptance.MeterTakesEffect`). |
| ContentRights.Pallet.Dispatch | pallets/content-rights/src/tests.rs:1828-1857 | Any signed extrinsic: its success or exact error, and storage put back as it was on failure. |
| Wire.WireRoundTrip | pallets/rights-client/src/lib.rs:182-193 | Decoding what the client sends, by the rights chain's call indices and argument order, yields exactly the matching cross-chain call for the beneficiary. |
| Wire.WireInjective | pallets/rights-client/src/lib.rs:182-193 | Distinct requests or beneficiaries never have the same bytes. |
| Wire.WireCanonical | pallets/content-rights/src/lib.rs:987-1104 | Whatever the rights chain decodes as one of the four cross-chain purchase calls is the encoding of one request. |
| RightsClient.Pallet.SubmitRequest | pallets/rights-client/src/lib.rs:228-258 | Takes the escrow, registers the query and produces the encoded call, or fails with nothing changed. |
| RightsClient.Pallet.Settle | pallets/rights-client/src/lib.rs:264-284 | Settles only responses of the rights chain to pending queries; a refused transfer leaves the request pending. That every genuine report settles is `Escrow.SettlementDecided` and `Protocol.DeliverySettles`. |
| Escrow.RequestDecided | pallets/rights-client/src/lib.rs:228-258 | A request is accepted exactly if its sender is a 32-byte account, can pay the escrow, and the message is sent, with the error of the first failure otherwise; it is then pending under the next query id. |
| Escrow.SettlementDecided | pallets/rights-client/src/lib.rs:264-284 | A report settles its request exactly if it comes from the rights chain, the request is pending and the escrow can be paid out, whatever the response; otherwise the error is that of the first failure. |
| Escrow.RequestTakesEscrow | pallets/rights-client/src/lib.rs:237 | An accepted request moves exactly the escrow from its sender to the escrow account. |
| Escrow.SettlementPaysEscrow | pallets/rights-client/src/lib.rs:271-280 | A settlement removes the request and moves exactly the escrow from the escrow account to the operator or the user, whatever accounts coincide; no other balance changes, and issuance falls only by the dust left on the escrow account. |
| Escrow.SettlementCoversIff | pallets/rights-client/src/lib.rs:275-280 | A settlement keeps pending escrows covered if and only if it pays the escrow account itself, what is left there is not reaped as dust, or nothing remains to be covered. |
| Protocol.OutcomeAgreement | pallets/rights-client/src/lib.rs:260-284 | In every interleaving exactly one holds of each query issued: pending; operator paid once and exactly the requested right granted to the requesting account; user refunded once and the rights chain left unchanged. |
| Protocol.DeliverySettles | pallets/rights-client/src/lib.rs:264-284 | In every run without dust escrows, delivering a report in flight with a willing currency takes its query from pending to paid if the call succeeded and to refunded if it failed. |
| Protocol.RequestCompletes | pallets/rights-client/src/lib.rs:228-284 | In every run without dust escrows, dispatching a message in flight and delivering its report ends in payment with the right granted exactly if the rights chain accepts the call, and in refund otherwise. |
| Protocol.CallGrants | pallets/content-rights/src/lib.rs:989-1132 | A successful cross-chain purchase grants exactly the requested right to the beneficiary and changes no other right. |
| Protocol.EscrowAlwaysCovered | pallets/rights-client/src/lib.rs:237-280 | In every run without dust escrows the escrow account holds at least the sum of all pending escrows. |
| Protocol.DustEscrowCanBeLost | pallets/rights-client/src/lib.rs:228-284 | A run of two requests, a dispatch and a settlement, from any start with enough money, after which a pending escrow is no longer covered. |
| RelayRoots.Pallet.RecordRelayRoot | pallets/rights-verifier/src/lib.rs:202-213 | Records the relay parent once, dropping the oldest when full. |
| RelayRoots.WindowIsRecentHistory | pallets/rights-verifier/src/lib.rs:202-213 | For nondecreasing reports with gaps and repeats the window is the last MaxRelayRoots entries of the deduplicated history. |
| RelayRoots.WindowIsSound | pallets/rights-verifier/src/lib.rs:202-213 | For any reports the window is bounded, holds each number once, and only what was reported. |
| RightsVerifier.ProofBytesIsTotal | pallets/rights-verifier/src/lib.rs:216-223 | On any machine of at least 32 bits the size check sees the true total size, capped at the u32 maximum. |
| RightsVerifier.RightsKeyInjective | pallets/rights-verifier/src/lib.rs:264-281 | Distinct entries have distinct storage keys. |
| RightsVerifier.HeadKeyInjective | pallets/rights-verifier/src/lib.rs:225-232 | Distinct chains have distinct head keys, and no head key is the key of a right. |
| RightsVerifier.StoredValuesRoundTrip | pallets/rights-verifier/src/lib.rs:60-84 | Decoding a stored ownership, subscription or view-pack value gives back what was stored. |
| RightsVerifier.FoundRootWasReported | pallets/rights-verifier/src/lib.rs:240-244 | The root used for a relay block was reported for that block; that none is missed is `RightsVerifier.FindRootIff`. |
| RightsVerifier.FindRootIff | pallets/rights-verifier/src/lib.rs:240-244 | A recorded relay block is always found, and in a window of distinct numbers exactly with the root recorded for it. |
| RightsVerifier.RecentRootsAreFound | pallets/rights-verifier/src/lib.rs:202-244 | For nondecreasing reports exactly the last MaxRelayRoots distinct relay blocks can be used, each with the root reported for it. |
| RightsVerifier.CommitmentExists | pallets/rights-verifier/src/lib.rs:260-281 | Every state has a trie committing to exactly its rights: no two entries compete for a key. |
| RightsVerifier.AgreementIsPossible | pallets/rights-verifier/src/lib.rs:234-290 | For every state, holder, key hashing and relay block of any window there are a sound reader, commitments by which that block includes the state, and proofs whose three answers are accepted, so the agreement below is not vacuous. |
| RightsVerifier.AnswersAreTrue | pallets/rights-verifier/src/lib.rs:304-413 | An accepted answer states exactly what the included state stores, for any proof nodes the caller supplies. |
| RightsVerifier.AnsweredIffProved | pallets/rights-verifier/src/lib.rs:304-413 | For any reports seen, each question about an included state is answered exactly if the two proofs total at most 16,384 bytes and their nodes prove the head and the entry at the recorded relay block. |
| RightsVerifier.ReadDecided | pallets/rights-verifier/src/lib.rs:234-318 | Reading an entry at a recorded relay block succeeds exactly if size, head proof, head, header and entry proof are all in order, and otherwise fails with the error of the first that is not. |
| RightsVerifier.DecodingDecided | pallets/rights-verifier/src/lib.rs:326-413 | A value read answers its question exactly if it has the length and flag byte of the stored type, and is otherwise refused as undecodable. |
| RightsVerifier.BadClaimsRefused | pallets/rights-verifier/src/lib.rs:304-413 | Proofs above 16,384 bytes are refused as too large, and claims at unrecorded relay blocks as unknown, for all three questions. |
| RightsVerifier.RemoteAnswersAgree | pallets/rights-verifier/src/lib.rs:326-413 | Three accepted answers at one relay block combine by priority to `access_rights` on the included state. |
| RightsVerifier.EvmAnswersAgree | runtime/src/precompiles.rs:95-135 | On every reachable state `access_rights_of` is the decision the log implies, none for unknown contents; `checkAccess` reverts exactly for those and otherwise returns its code. |

## Left out

- Existential-deposit, hold and freeze rules of the currency beyond the transfer premise, except the dust rule in escrow coverage: foreign library.
- NFT deposits, attributes and roles, and mints or burns made directly by users: only possible failure is kept.
- The XCM executor, fees, the refund appendix and barriers: foreign semantics, kept as the message premises above.
- Merkle tries, hashing and header decoding: contracts stated as premises; `Vec` and header decoding are one primitive.
- Weight constants: only the counters they are computed from are modelled.
- Events without effect on rights, content titles and metadata hashes, and the rest of `query_rights_metadata` and `check_access`: nothing depends on them.
- `getContent`, `isOwner`, `getSubscription`, `getViewPack` and ABI encoding in the precompile: single lookups.
- Account identifiers that are not 32 bytes on the rights chain, and with them the decoding error of a split recipient.
- Overflow of the query counter on the client chain, and query timeouts.
- Node, runtime wiring, genesis presets, network configurations and scripts: input/output and configuration.
- Nothing was executed: the claims are about the model, proved by the verifier.

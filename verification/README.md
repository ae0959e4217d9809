# A verified model of the Lightning and Liquid swap server

The server sells a Liquid asset for Lightning payments, and buys it back. It locks the
asset and a small LBTC fee subsidy in a hash time-locked contract (HTLC), watches the
chain, pays or receives a Lightning payment, claims with the payment preimage, and refunds
HTLCs whose lock height has passed. This project models that engine and proves what it
keeps, from script bytes to whole runs of any number of interleaved handlers.

## How the model is built

**Script layer.** `ScriptNum`, `Script` and `HtlcScript` model script numbers, the script
builder, the instruction iterator, the printer and the parser, byte by byte. `Interpreter`
runs the opcodes of the HTLC under BIP141 (section "Witness program") and BIP65 (section
"Summary"), and `HtlcMeaning` says exactly which witness stacks the HTLC accepts.
`ScriptBytes` is the printed script byte by byte. `Transaction` and `HtlcSpend` model
Elements transactions with explicit amounts, and the two builders that spend an HTLC;
`SpendSignatures` says what their signatures cover.

**Storage and funding layer.** `Chain` is the set of accepted transactions, their spends
and block heights, with no reorgs and no replacement. `Funding` is the wallet's output scan
and confirmation count. `Offer` is the protobuf encoding behind an offer id, and `OfferWire`
reads it back by the wire format alone. `Records` are the persisted records and party
tables, and `Store` the SQLite store as a class over rows.

**Protocol layer.** `Protocol` is a state machine with 19 actions. A handler is cut where
the code releases a lock or awaits, so every interleaving is a run. Any number of tasks,
blocks, foreign transactions, failures and crashes (with a new configuration) may come in
between. A broadcast may be accepted without the server hearing of it, and a known
transaction may be reported as sent again. `Invariant` and the four `Invariant*` step
modules prove an inductive invariant, and `Safety`, `StatusOrder`, `Serial`, `QuoteLinks`,
`Liveness` and `Ledger` draw the consequences. `Interleavings` holds concrete runs that
show what does not hold, put together in `ToyWorld`, `ToySteps` and `ToyRuns`; `StuckRuns`
has the one for refund passes. Where a property fails, its exact condition is proved for all
runs: `FundingRecords` and `QuoteFunding` for HTLCs without a record and quotes funded twice,
`RefundHistory` and `RefundRaces` for paid swaps that are refunded, `PaidSwaps` and
`RefundFutures` for the same with one task at a time. `Locks` proves deadlock freedom.

**The code as it runs.** `Service`, `Wallet` and `RefundWorker` are the handlers and the
refund worker as imperative methods over the store and wallet objects. `Decisions` and
`Creations` say, from the request, the tables and the configuration alone, what each handler
accepts, refuses, sends and stores. `Handlers`,
`CreateSteps` and `RefundSteps` name, for every way a call or a pass can end, the protocol
actions it takes when no other call is under way, and prove that they leave the same tables
and chain. Blocks and foreign transactions come while a payment is awaited and while a
funding waits for confirmations.

## Hypotheses

Cryptography is a value `Crypto` of functions. `Transaction.Ideal` lists what is assumed:
SHA-256 has no collisions, a key's own signature verifies, and encodings have their
lengths; `IdealCryptoExists` shows the list can be met. `Protocol.WorldOk` adds that the
wallet's address at an index pays the key at that index. `Protocol.NoForgery` says that a
foreign transaction carries no signature that checks under a wallet key it also carries,
unless the wallet signed that transaction; under any other key it may carry anything.
`Interleavings.OutsiderClaims` is a run in which an outside buyer spends an HTLC with its
own key. Swap ids are fresh. The funding transaction has one HTLC output per recipient, and
spends key-hash coins. Statements that an HTLC is spent only by the wallet assume that the
wallet holds both of its keys (`BothKeysOwned`); the buyer's address may be anybody's.
Where a lemma needs that a spend shares its txid with no other transaction, it says so.

## What the model shows

- Statuses can go backwards under overlap, in exactly four ways: a late `Funded` or `Paid`
  over `Refunded`, a late `Paid` over `Claimed`, and a late `Refunded` over `Paid`. There is
  a run for each.
- A quote can be funded twice: by two create_swap calls that overlap, and, even one task at
  a time, after a call that funded the quote ended before linking it (the reply to its
  broadcast was lost, it failed, or the server crashed). These are the only ways,
  counting HTLCs whose outputs the scan finds.
- An HTLC whose outputs the scan finds lacks a record exactly if its call lost the reply,
  failed or was cut by a crash between the broadcast and the insertion. The refund worker
  never sees such an HTLC. The insertion itself never fails.
- Even one task at a time, a refund that reaches the network while its reply is lost leaves
  the swap payable, and the server then pays for an HTLC that is gone. For a swap whose keys
  the wallet holds, a stored payment can meet a refund exactly if the wallet had signed a
  refund of it before the payment call read it. Beginning payments only below the lock
  height excludes that. With overlapping tasks one more way is added, and only one: a refund
  pass that listed the swap before it was paid and still gets to its row.
- If the sold asset is the policy asset, the funding is broadcast but the scan fails, so
  the HTLC has no record.
- One due swap whose refund cannot be built stops every refund pass before all later ids; a
  LIQUID_TO_LN swap with a buyer address outside the wallet is one, and a run creates it.
- A lock height of 500,000,000 or more can never be refunded by the server.
- The parser also reads scripts the printer never makes: a lock height of zero may be
  pushed as minus zero.
- The comments of `proto/ln_liquid_swap/v1/swap.proto` (lines 40 and 85) say that only
  LN_TO_LIQUID is supported; the code serves both directions and so does the model.

## Model

| member | source | states |
|---|---|---|
| ScriptNum.Decode | src/liquid/htlc.rs:100-120 | the decode loop returns the signed little-endian value of up to 8 bytes, fails exactly on longer strings, and no shifted byte or partial value leaves i64 |
| ScriptNum.ValueEncode | src/liquid/htlc.rs:100-120 | decoding undoes minimal encoding on every integer |
| ScriptNum.EncodeValue | src/liquid/htlc.rs:100-120 | encoding undoes decoding exactly on the minimal byte strings |
| ScriptNum.FitsParserIffBelow63Bits | src/liquid/htlc.rs:104-106 | the parser's 8-byte limit admits exactly the integers of magnitude below 2^63 |
| ScriptNum.LockHeightFitsFiveBytes | src/liquid/htlc.rs:42 | every u32 lock height fits the five bytes CLTV reads |
| Script.InstructionsOfSerialize | src/liquid/htlc.rs:27-50 | the iterator reads back exactly the instructions the builder emitted, minimal pushes enforced or not |
| Script.PushIntCanonical | src/liquid/htlc.rs:42 | zero, small numbers and long heights are all pushed in the one form the minimal iterator accepts |
| HtlcScript.ParseWitnessScript | src/liquid/htlc.rs:57-181 | the parser advancing its iterator returns what the parsing function of the bytes says, errors included |
| HtlcScript.ParseUndoesPrint | src/liquid/htlc.rs:26-181 | parsing a printed script gives back the specification, for every hash and every u32 height |
| HtlcScript.WitnessScriptInjective | src/liquid/htlc.rs:26-51 | different specifications have different scripts |
| HtlcScript.ParseAccepts | src/liquid/htlc.rs:140-181 | which byte strings parse to a specification: the template with any canonical pushes of its two numbers, and no others |
| HtlcScript.PrintUndoesParseIffMinimal | src/liquid/htlc.rs:80-98 | a parsed script is the printed one exactly when its numbers are minimally encoded |
| HtlcScript.MinusZeroParses | src/liquid/htlc.rs:100-120 | a second script, with minus zero as its height, parses to the same specification |
| HtlcMeaning.HtlcAcceptsIff | src/liquid/htlc.rs:26-51 | the script accepts a witness stack exactly when it is the claimer's with the preimage or the refunder's after the lock height; no other stack of any shape |
| HtlcSpend.BuildClaimTx | src/liquid/htlc.rs:246-354 | signing the bare transaction and filling witnesses in place yields the specified claim, and an error exactly when the fee reaches the subsidy |
| HtlcSpend.BuildRefundTx | src/liquid/htlc.rs:356-463 | likewise for the refund, which also fails at lock heights from 500,000,000 on |
| HtlcSpend.ClaimAcceptedIff | src/liquid/htlc.rs:314-351 | both claim inputs satisfy the chain exactly with the right preimage and the claimer's key |
| HtlcSpend.RefundAcceptedIff | src/liquid/htlc.rs:412-460 | both refund inputs satisfy the chain exactly with the refunder's key and a locktime at or above the script's height |
| ScriptBytes.WitnessScriptBytes | src/liquid/htlc.rs:26-51 | the printed script is, byte for byte, the opcodes of the template around the three hashes and the height in its shortest push |
| SpendSignatures.ClaimIsSpend | src/liquid/htlc.rs:246-354 | a claim is built exactly for a fee below the subsidy; every field of it, and both witnesses, which start with a signature of type 0x01 over this very transaction |
| SpendSignatures.RefundIsSpend | src/liquid/htlc.rs:356-463 | likewise for the refund, which also needs a height below 500,000,000, and waits for it |
| SpendSignatures.AlteredOutputsRejected | src/liquid/htlc.rs:465-487 | with other outputs than it was built with, a claim or refund no longer spends the HTLC, unless a hash or signature collides |
| Transaction.KeyHashOfScript | src/liquid/htlc.rs:199-207 | a script yields a key hash exactly when it is the P2WPKH script of that hash |
| Funding.FindHtlcOutputs | src/liquid/wallet.rs:112-135 | the scan loop returns the last matching outputs, or an error when either is missing |
| Funding.ScanFindsOutputsIff | src/liquid/wallet.rs:112-135 | on a funding with one output per recipient the scan finds the two right vouts exactly when the sold asset is not the policy asset |
| Funding.UnminedCount | src/liquid/wallet.rs:148-157 | a transaction outside every block has no count if it is unknown and the count zero otherwise |
| Funding.MinedCount | src/liquid/wallet.rs:155-161 | a mined transaction has exactly one confirmation for its own block and one for each block up to the tip that is read |
| Funding.CountByBlocks | src/liquid/wallet.rs:155-161 | after the block that takes it and k more blocks a transaction has k + 1 confirmations, no more and no less |
| Funding.ConfirmedForever | src/liquid/wallet.rs:138-162 | confirmations once counted are never lost, whatever is accepted or mined later |
| Funding.WaitForConfirmations | src/swap/service.rs:266-300 | the polling loop succeeds exactly when some poll sees enough confirmations before any failure |
| Records.PartyTablesAgree | src/swap/service.rs:188-212 | the key hashes in the script, the claim and refund key indices and the party table name the same parties in both directions |
| OfferWire.OfferReadsBack | proto/ln_liquid_swap/v1/swap.proto:256-277 | a reader of the wire format finds each field of an offer under its number in the message definition |
| OfferWire.CurrentOfferReads | src/swap/service.rs:95-109 | the bytes of the offer in force hold the configuration's values, both directions and the limit of six confirmations |
| OfferWire.OfferIdCovers | src/swap/service.rs:111-117 | the offer id is the SHA-256 of bytes from which such a reader gets the offer |
| Offer.EncodeInjective | src/swap/service.rs:111-117 | offers with the same protobuf bytes are the same offer |
| Offer.OfferIdMatchesIff | src/swap/service.rs:434-440 | the offer check passes exactly when price, subsidy, refund delta, expiry, asset and confirmation limit are those quoted |
| Records.IdLessIff | src/swap/store.rs:383 | in the listing order a proper prefix comes first and otherwise the first difference decides |
| Store.SwapRowRoundTrip | src/swap/store.rs:203-259 | a swap binds to a row exactly when its amounts fit i64, and the row reads back as that swap |
| Store.QuoteRowRoundTrip | src/swap/store.rs:41-189 | the same for quotes |
| Store.UpdatesReadBack | src/swap/store.rs:297-353 | after any updates every row reads back with its terms and the latest value of each updated column |
| Store.SqliteStore.InsertQuote | src/swap/store.rs:41-81 | insertion succeeds exactly for a storable quote under a new id, and adds only it |
| Store.SqliteStore.InsertSwap | src/swap/store.rs:203-259 | insertion succeeds exactly for a storable swap under a new id, and adds only it |
| Store.SqliteStore.SetQuoteSwapId | src/swap/store.rs:191-201 | sets one field of one quote, or reports a missing one |
| Store.SqliteStore.GetSwap | src/swap/store.rs:261-295 | returns the swap stored under the id |
| Store.SqliteStore.UpdateSwapStatus | src/swap/store.rs:297-307 | changes one status and nothing else |
| Store.SqliteStore.UpsertSwapPayment | src/swap/store.rs:309-331 | sets the payment fields and status of one row and nothing else |
| Store.SqliteStore.UpsertSwapClaim | src/swap/store.rs:333-353 | sets the claim txid and status of one row and nothing else |
| Store.SqliteStore.ListSwaps | src/swap/store.rs:355-398 | lists every swap once, in id order |
| Safety.RunKeepsInv | src/swap/service.rs:401-864 | the invariant holds in every state of every interleaved run |
| Safety.RunGrows | src/swap/service.rs:401-864 | no run undoes a spend, a transaction, a funded HTLC, a swap's terms or a quoted term |
| Safety.RecordsCoherent | src/swap/service.rs:597-854 | in every reachable state a preimage opens the payment hash, comes with a payment id and a status of Paid, Claimed or Refunded; a claim txid names the spender of both outputs and excludes Refunded; Claimed and Refunded have their spends on the chain; Failed never occurs |
| Safety.RecordsDescribeChain | src/swap/service.rs:827-835 | the funding rebuilt from any stored record is what the chain holds: two distinct outputs with the assets and amounts the signatures commit to |
| Safety.StoredScriptMatches | src/swap/service.rs:556-588 | the hash and height a record stores are those its witness script enforces, and both its outputs pay to the stored address |
| Safety.PreimageNeverChanges | src/swap/service.rs:715-735 | a stored preimage stays the same for the rest of the run, racing payment calls included |
| Safety.ClaimTxidUnique | src/swap/service.rs:847-854 | any two states of a run that store a claim txid for a swap store the same one |
| Safety.OwnedHtlcSpentOnce | src/swap/service.rs:794-857 | an HTLC whose keys the wallet holds is unspent, or both outputs were spent together by one claim with its preimage stored or one refund after its lock height |
| Safety.EverySpendIsClaimOrLateRefund | src/swap/service.rs:542-561 | whoever spends an HTLC output shows the preimage and the claimer's signature, or the refunder's signature at least `delta` blocks after creation |
| Safety.QuoteLinkSound | src/swap/service.rs:576-604 | a linked quote names an existing swap made from it, on its direction, amounts, price, confirmations, subsidy and refund delta |
| Safety.OfferCheckAcrossRestarts | src/swap/service.rs:126-151 | in every reachable state, restarts included, the offer shown for a quote hashes to its offer id, and the offer check passes exactly when the configuration in force is the quoted one |
| StatusOrder.RunFollowsOrderIff | src/swap/service.rs:618-735 | a step of any run leaves a status alone or moves it along the order, except exactly the late writes |
| Interleavings.RefundedOverwritten | src/swap/service.rs:618-622 | a concrete run in which a refund recorded during the confirmation wait is overwritten by Funded |
| Interleavings.RefundedOverwrittenByPaid | src/swap/service.rs:694-735 | a concrete run in which a payment begun before a refund was recorded overwrites it |
| Interleavings.PaidOverwrittenByRefunded | src/bin/swap_server.rs:221-284 | a concrete run in which a refund sent before a payment was stored overwrites it |
| Interleavings.ClaimedOverwrittenByPaid | src/swap/service.rs:694-735 | a concrete run in which a second payment call overwrites a claim |
| Interleavings.OutsiderClaims | src/swap/service.rs:542-561 | a concrete run in which a buyer outside the wallet claims with its own key, so spends are the wallet's only under `BothKeysOwned` |
| Interleavings.QuoteFundedTwiceSerially | src/swap/service.rs:563-604 | a concrete run, one task at a time, in which a quote is funded again after the reply to its first funding was lost; the first HTLC has no record |
| Interleavings.QuoteFundedTwice | src/swap/service.rs:413-432 | a concrete run in which two overlapping calls fund one quote and the second link replaces the first |
| Interleavings.PaidAfterLostRefund | src/bin/swap_server.rs:277-288 | a concrete serial run in which a refund whose reply was lost is followed by the payment |
| Serial.SerialStatusDescends | src/swap/service.rs:683-735 | when tasks do not overlap, a row changes only by moving its status down the order |
| Serial.NeverPaidAndRefunded | src/bin/swap_server.rs:221-284 | when tasks do not overlap, no swap ever has a stored preimage and ever is Refunded |
| RefundHistory.RefundSignedIff | src/bin/swap_server.rs:221-276 | in every reachable state the wallet has signed a refund of an HTLC exactly if some earlier pass built one for its row |
| RefundHistory.RefundSpentIff | src/bin/swap_server.rs:277-288 | in any run and with any keys, an HTLC is refunded on the chain at a later time exactly if it was before, or in between a pass's broadcast was accepted or somebody else broadcast a refund |
| RefundRaces.StoredPaymentRefundableIff | src/bin/swap_server.rs:215-288 | in every reachable state of any number of tasks, with the wallet's keys: a swap with a stored payment can still be refunded on the chain exactly if it has been, or its outputs are unspent and a refund of it is signed or a pass under way listed it before it was paid and will get to its row |
| PaidSwaps.PaidSwapRefundedIff | src/swap/service.rs:668-735 | serially, with any keys: a swap whose payment is stored is refunded on the chain at a later time exactly if it was when the call read it, or somebody else has broadcast a refund since; the server's own passes never do |
| PaidSwaps.PaidSwapRefundWasSigned | src/bin/swap_server.rs:277-288 | serially, with the wallet's keys: such a refund had been signed before the payment call read the swap |
| PaidSwaps.EarlyPaymentIsSafe | src/swap/service.rs:694-696 | serially, with the wallet's keys: a payment begun below the lock height never meets a refund |
| RefundFutures.PaidThenRefundableIff | src/bin/swap_server.rs:277-288 | serially, with the wallet's keys: some continuation refunds a paid swap on the chain exactly if a refund of it was signed before the payment call read it |
| FundingRecords.FundedHasRecordIff | src/swap/service.rs:563-604 | in every reachable state a funded HTLC has its record, or its call is about to insert it, exactly unless that call lost the reply to its broadcast, failed or crashed before the insertion |
| FundingRecords.InsertionNeverFails | src/swap/service.rs:600-601 | in every reachable state the record a call is about to insert is storable and its id new |
| QuoteFunding.FundedLinksUnlessCut | src/swap/service.rs:602-604 | in every reachable state a funded HTLC has its quote linked, or about to be, unless its call was cut before the link |
| QuoteFunding.QuoteFundedAgainIff | src/swap/service.rs:413-432 | a call funds a quote that already has an HTLC exactly if another call linked the quote after this one read it, or an earlier call funded it and was cut before the link |
| QuoteLinks.QuoteLinkedOnce | src/swap/service.rs:413-432 | if create_swap calls on this quote do not overlap, its link never changes and nothing more is funded for it, whatever calls on other quotes do |
| Liveness.SpendConserves | src/liquid/htlc.rs:286-302 | a spend conserves every asset, pays the asset in full and a positive LBTC remainder, also when the asset is the policy asset |
| Liveness.StoredPreimageClaims | src/swap/service.rs:798-849 | in every reachable state a stored preimage gives an accepted claim exactly when the claimer's key is unchanged, the fee is below the subsidy and the outputs are unspent |
| Liveness.LockedSwapRefunds | src/bin/swap_server.rs:249-276 | in every reachable state a refund is accepted exactly when the height is reached and below 500,000,000, the refunder's key is unchanged, the fee is below the subsidy and the outputs are unspent |
| Liveness.RefundGateExact | src/bin/swap_server.rs:225-227 | in every reachable state and for every stored swap, the worker's height test holds exactly when the refund it builds is final in the next block and passes CLTV; the lock is the creation tip plus the delta then offered, saturated |
| Ledger.LedgerBalances | src/liquid/htlc.rs:286-302 | in every reachable state, for every asset and all HTLCs whatever their keys: all that was locked is unspent, paid out by the server's spends, gone in their fees, or taken by others |
| Ledger.NothingTakenFromOwned | src/swap/service.rs:794-857 | nothing is taken from HTLCs whose keys the wallet holds |
| Ledger.NothingCountedTwice | src/swap/service.rs:563-589 | two HTLCs share no output, and no spend of the server's spends two of them |
| Ledger.SettlementPaysInFull | src/liquid/htlc.rs:286-302 | an HTLC the server spent paid the whole asset and a positive remainder to one address of its claimer or refunder, and one fee below the subsidy |
| RefundWorker.RefundOnce | src/bin/swap_server.rs:205-291 | a pass succeeds exactly when it tried every due swap; otherwise it tried a prefix; exactly the swaps whose broadcast went through become Refunded and nothing else changes |
| RefundWorker.DueSwapsExact | src/bin/swap_server.rs:221-227 | the swaps a pass tries are the listed ones that are Created or Funded with the height reached, in id order |
| RefundWorker.ListingUnique | src/swap/store.rs:355-398 | a table has one listing, so a pass is determined by the table |
| RefundWorker.DueTriedIff | src/bin/swap_server.rs:244-276 | a due swap is tried exactly if every due swap up to it in id order has a refund: fee below the subsidy, height below 500,000,000, and for LIQUID_TO_LN the buyer's address at the wallet's buyer index |
| StuckRuns.StuckPass | src/bin/swap_server.rs:257-262 | a concrete run in which create_swap stores a LIQUID_TO_LN swap of a buyer outside the wallet ahead of a refundable swap; every pass, at any tip and fee, sends nothing and changes nothing |
| RefundSteps.PassTakesSteps | src/bin/swap_server.rs:205-291 | a pass, complete or stopped, takes the named actions, ending in EndRefund or Fail; they leave its table and the chain its broadcasts lead to, lost replies included |
| Decisions.QuoteMadeIff | src/swap/service.rs:307-349 | a quote is made exactly for the seller, a valid direction, a positive amount of the sold asset, 0 to 6 confirmations and a total price that fits 64 bits |
| Decisions.QuoteSays | src/swap/service.rs:351-366 | its fields are the request's and the configuration's, its total price their product |
| Decisions.QuoteRefusals | src/swap/service.rs:307-349 | which refusal code answers which fault |
| Decisions.PaymentMadeIff | src/swap/service.rs:663-696 | the invoice is paid exactly for the payer of the swap's direction, while the swap is Funded and no payment is stored |
| Decisions.PaymentStoredIff | src/swap/service.rs:683-692 | a stored payment is given back exactly to that caller |
| Decisions.PaymentRefusals | src/swap/service.rs:663-696 | which refusal code answers which fault |
| Decisions.PaymentStoredAfter | src/swap/service.rs:698-735 | the node pays the stored invoice; its id and preimage are stored exactly if the preimage opens the stored hash |
| Decisions.ClaimSentIff | src/swap/service.rs:748-835 | a claim is sent exactly for the claimer of a paid, unclaimed swap with a fee below the subsidy, 500 unless the caller names one, and for LN_TO_LIQUID only to the buyer's own address |
| Decisions.ClaimPays | src/swap/service.rs:781-845 | the claim sent spends the two stored outputs with the stored preimage and script, pays asset and remainder to the claimer's address, and exactly that fee |
| Decisions.ClaimRefusals | src/swap/service.rs:748-779 | which refusal code answers which fault, and when a stored claim is given back |
| Decisions.RefundPays | src/bin/swap_server.rs:244-276 | the refund of a swap spends the two stored outputs with the stored script at the stored height and pays the refunder's address and the fee |
| Decisions.SwapFundedIff | src/swap/service.rs:405-471 | a create_swap call goes on to fund exactly for the buyer, an unlinked quote that is still the offer in force, and a P2WPKH address of the network |
| Decisions.SwapExistsIff | src/swap/service.rs:421-432 | it answers with the linked row exactly if the quote is linked to a stored swap |
| Decisions.SwapRefusals | src/swap/service.rs:405-471 | which refusal code answers which fault |
| Decisions.InvoiceTakenIff | src/swap/service.rs:474-521 | the invoice of a new swap is the one the node makes for the quoted price and expiry, the buyer bringing none, or for LIQUID_TO_LN the buyer's, of the quoted price and not expired |
| Decisions.InvoiceRefusals | src/swap/service.rs:474-521 | a failing node is an internal error, any other misfit the buyer's |
| Creations.EffectsNeedFundable | src/swap/service.rs:401-634 | a call that sends or changes anything had such a request and such an invoice, and sends the one funding built |
| Creations.FundableNotRefused | src/swap/service.rs:401-634 | such a request is never refused for the request, and its funding is sent exactly if the tip is read and the funding can be built |
| Creations.CreatedSwapFits | src/swap/service.rs:523-625 | what a call stores is one swap under its id, linked to its quote: terms of the quote, the request, the invoice and the funding sent, a script that reads back to the invoice's hash, the parties' keys and the tip plus delta; Funded exactly if the confirmations came |
| Creations.FundingStoredIff | src/liquid/wallet.rs:112-135 | a funding that the network took is stored exactly if both its outputs are found and the amounts fit the store |
| Creations.CreateIsIdempotent | src/swap/service.rs:421-432 | after a call answered with a swap, every later call on that quote gets the same row and changes nothing, whatever the configuration |
| Service.SwapService.CreateQuote | src/swap/service.rs:303-378 | the code of each refusal in order, or one new quote |
| Handlers.QuoteCreatedIff | src/swap/service.rs:303-378 | the handler stores a quote exactly when the protocol lets that quote be created for the seller's request |
| Handlers.QuoteTakesStep | src/swap/service.rs:303-378 | the quote a call stores is the one action that creates it, and nothing else changes |
| Handlers.QuoteHonoured | src/swap/service.rs:434-471 | while the configuration stays, create_swap accepts a quote the server made from exactly the buyers with a P2WPKH address of the network |
| Service.SwapService.CreateSwap | src/swap/service.rs:401-634 | each refusal changes nothing; after that what was sent and what the tables hold for every failure point, and a funded, linked swap on success |
| Service.SwapService.CreateLightningPayment | src/swap/service.rs:659-742 | each refusal changes nothing; a payment is stored exactly when the preimage opens the hash |
| Service.SwapService.CreateAssetClaim | src/swap/service.rs:744-864 | each refusal changes nothing; a claim is recorded exactly when its broadcast went through |
| Service.PayIsIdempotent | src/swap/service.rs:683-692 | a second payment call returns the first answer and changes nothing |
| Service.ClaimIsIdempotent | src/swap/service.rs:768-770 | after a claim every later call returns its txid and sends nothing |
| Handlers.PayBeginsIff | src/swap/service.rs:668-696 | the handler goes on to pay exactly when the protocol lets payment begin |
| Handlers.PayTakesSteps | src/swap/service.rs:659-742 | whatever the node answers, and whatever blocks and transactions come first, the call takes the named actions and they lead to its table, on the chain as the wait left it, everything else unchanged |
| Handlers.ClaimBeginsIff | src/swap/service.rs:753-845 | the handler sends a claim exactly when the protocol lets one begin and it can be built |
| Handlers.ClaimTakesSteps | src/swap/service.rs:744-864 | whatever the network answers, the call takes the named actions and they lead to its table and to the chain its broadcast leads to |
| CreateSteps.CreateBeginsIff | src/swap/service.rs:405-471 | the handler goes on to fund exactly when the protocol lets the call begin |
| CreateSteps.CreateTakesSteps | src/swap/service.rs:401-634 | wherever the call stops (before the broadcast, without its reply, at the scan, in the wait) or succeeds, whatever blocks and transactions come during the wait, it takes the named actions and they lead to the named tables, chain and funded HTLCs |
| CreateSteps.SuccessPossible | src/swap/service.rs:266-300 | whatever number of confirmations the quote asks for, some wait of blocks brings them, so the conditions of a successful call can be met |
| CreateSteps.OutcomeIsAfterCreate | src/swap/service.rs:523-625 | for every outcome of the handler, those tables are the ones it leaves |
| Locks.PathDisciplined | src/swap/service.rs:539-622 | every code path takes the wallet before the store and never a lock it holds |
| Locks.NoDeadlock | src/bin/swap_server.rs:212-284 | in every reachable state of any number of tasks, early exits included, some lock holder can go on while any task waits |
| Locks.ReverseOrderDeadlocks | src/swap/service.rs:795-851 | one task that took the store first could deadlock with a claim |

## Left out

- Text and hex forms of hashes, txids, asset ids, addresses and scripts: fields hold the decoded bytes, so their parse errors do not occur.
- get_quote and get_swap: one authorized read each, with no further property.
- The bearer token, the request plumbing, the command line, logging and the swap_cli binary.
- The Lightning node, invoices beyond hash, amount and expiry, and payment timeouts: the node is a function of the invoice to pay, or of the amount and expiry asked for, and a handler may fail at any point.
- Coin selection and signing of the funding transaction, Electrum synchronisation: the funding transaction, the tip and each reply are inputs.
- Reorganisations, replacement and mempool policy: an accepted transaction stays accepted.
- Blinded amounts, issuance and peg-ins: only their scripts are modelled, and balance is required of explicit transactions.
- The limits on operations and stack depth, and the encodings of signatures and public keys, in the script interpreter; the HTLC script stays below the limits.
- Time-based lock times: `Chain.Final` lets them through; the server never sets one.
- SHA-256 is collision-free and of unconstrained length; HASH160 may collide.
- The SQL engine and its migrations (src/swap/store.rs:482-608): tables are maps from key to row with the i64 range check.
- Poisoned mutexes: a panic while holding a lock is not modelled.
- Between two actions: the action that marks a swap Funded merges the last confirmation poll with the status write after it, and the first step under the wallet lock merges taking the lock with its first visible effect.
- Truncation of a vout above u32: the scan's users treat it as an error, but no transaction has that many outputs.
- What the lock paths compute: they list lock operations only, and the protocol layer has the rest.
- Concurrency in the imperative handlers: `Service` and `RefundWorker` run one call at a time, because interleaving is the protocol layer's subject.

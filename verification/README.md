# Verified model of comdex-rwa: proposals, claims and invoices

Three parts of the repository are modelled and proved in Dafny 4.11. `dafny verify dfyconfig.toml` checks everything.

**Proposals** (`Rounding.dfy`, `Proposals.dfy`, `Decisions.dfy`; source `packages/cw3/src/proposal.rs`). A CW3 proposal
counts weighted votes and may be declared passed or rejected before voting ends. `Proposals` holds the `Votes` and
`Proposal` objects with their widths and panics (`None`); `Snapshot` is a proposal's value. `Decisions` compares the
early tests with every possible future of votes and with exact fractions.

**Claims** (`Claims.dfy`; source `packages/controllers/src/claim.rs`). Unbonding claims per address, released greedily
in order up to an optional cap.

**Invoices** (`State.dfy`, `Profile.dfy`, `Invoicing.dfy`, `Contract.dfy`, `Invariants.dfy`, `Queries.dfy`,
`Calls.dfy`, `Tokens.dfy`, `Runs.dfy`, `Replay.dfy`, `Contacts.dfy`, `Custody.dfy`, `Witnesses.dfy`; source
`contracts/core/src`). `Storage` is the contract's storage, each handler a method that edits it, and `Execute` the
entry point that restores it when anything fails. Each handler is proved against a function giving its outcome on the
storage's value. `Calls` says exactly when each call is taken; `Replay` shows that the storage of every run is a plain
replay of its successful calls, field by field; the invariants, the query results and the other properties of runs
build on these.

A run is a sequence of calls and of things others do to tokens. Its state holds, beside the storage, the owner of every
token in every collection, and which collections have the contract as minter. A `Mint` is taken when the contract is the
minter and the id is new, a `TransferNft` when the contract owns the token or its owner approved it
(`packages/cw721/README.md:10-42`); a refused message undoes the call. Only whether the bank takes a payment is left to
the environment. Others act on tokens that are not the contract's, and mint where it is not the minter.

Checked arithmetic panics, because the release profile turns overflow checks on (`Cargo.toml:42`).

## Where the code does not do what it says

Each of these is proved, with the exact condition under which the stated behaviour holds.

- `is_rejected` promises "sure to be rejected" but can be late. `RejectedIsExactIff` gives the gap, `RejectionCanBeLate`
  a case with fifteen voters. `is_passed` is exact (`PassedIsExact`).
- `votes_needed` promises to round up. With more than nine decimals it can be one below the ceiling (`NeededIsCeilIff`,
  `RoundingUpCanFail`).
- The amount due plus the amount paid is the receivable at creation only if nothing is declared as already paid
  (`DuePlusPaidIff`).
- A payment counts fully whatever its denom. It adds as much in the receivable's denom exactly when it is of that denom
  or empty (`PaymentInOwnDenomIff`), so the payments of a run add up there exactly when all were (`PaidInOwnDenomIff`).
  In `SettledInAnotherDenom` the issuer gets nothing of the denom asked for.
- The token is meant to reach the issuer of a paid invoice. It does so if and only if the collection configured before
  the last payment is the one it was minted in (`CustodyFollowsStatusIff`); otherwise it never leaves the contract
  (`StrandedForever`). With a moved collection the payment itself goes through exactly when the contract may move that
  id there (`MovedCollectionStrandsToken`). `LastPaymentRefused` and `TokenIsStranded` are runs that show both.
- "Already in contact" is tested on the sent requests a second time, so only a pending request stops a new one
  (`ContactsMayRequestIff`). An accepted request keeps the contacts free of repetitions exactly when the two were not in
  contact (`AcceptKeepsContactsDistinctIff`); over a run a contact is listed once per request accepted
  (`ListedOncePerAcceptance`), so a list has no repetition exactly when with nobody more than one was accepted
  (`ContactsAreDistinctIff`). In `CrossingRequestsListTwice` each lists the other twice.
- Three calls neither refuse nor forward funds sent with them; that is all the contract ever keeps
  (`ContractKeepsOnlyStrayFunds`).
- The configuration names an owner, which restricts nobody (`OwnerRestrictsNothing`).
- The counter moves by two for each invoice (`IdsAfterCreations`).

The README and crate documentation of `contracts/core` describe a different contract and are not followed.

## Model

| member | source | states |
|---|---|---|
| Rounding.VotesNeededFits | packages/cw3/src/proposal.rs:160-164 | For a percentage up to one and any 64-bit weight no intermediate overflows, nothing is truncated, and the result is at most the weight |
| Rounding.NeededMonotone | packages/cw3/src/proposal.rs:160-164 | The requirement grows with the weight and with the percentage |
| Rounding.NeededGrowth | packages/cw3/src/proposal.rs:160-164 | Extra weight raises the requirement by at most that weight |
| Rounding.NeededComplement | packages/cw3/src/proposal.rs:158-164 | The requirements of complementary percentages add up to the weight or one more, despite rounding twice |
| Rounding.NeededIsCeilIff | packages/cw3/src/proposal.rs:158-164 | The result is the exact ceiling or one below, and below exactly when the fractional part is positive but under 10^-9 |
| Rounding.EnoughIff | packages/cw3/src/proposal.rs:158-164 | Votes meet the requirement exactly when they reach the exact fraction or miss it by under 10^-9 of a vote |
| Rounding.NeededIsCeilForNineDecimals | packages/cw3/src/proposal.rs:158-164 | With at most nine decimals the result is the exact ceiling |
| Rounding.RoundingUpCanFail | packages/cw3/src/proposal.rs:159-164 | A case where one vote is needed and the code asks for none |
| Proposals.Votes.Yes | packages/cw3/src/proposal.rs:138-146 | A tally opened by one Yes vote |
| Proposals.Votes.AddVote | packages/cw3/src/proposal.rs:148-155 | Adds the weight to the counter of that vote only; aborts exactly when that counter overflows |
| Proposals.Proposal.CurrentStatus | packages/cw3/src/proposal.rs:33-47 | The rebinding of the local status yields: pass first, then reject or expire, and only from Open |
| Proposals.Proposal.UpdateStatus | packages/cw3/src/proposal.rs:49-53 | Stores exactly the current status and changes nothing else |
| Decisions.DecisionsNeverPanic | packages/cw3/src/proposal.rs:57-120 | On a well-formed proposal no subtraction, sum or multiplication panics, in any branch, and both tests are the rule over unbounded integers |
| Common.ExpiresAtItsPoint | packages/cw3/src/proposal.rs:42-104 | An expiration is reached at its own height or time and not one earlier (the `is_expired` these lines call) |
| Decisions.PassedAsFractions | packages/cw3/src/proposal.rs:57-84 | Without rounding: Yes must reach its fraction of the non-abstaining weight, members while open and voters once expired, and the turnout its quorum |
| Decisions.RejectedAsFractions | packages/cw3/src/proposal.rs:88-119 | Without rounding, expired or not and with any veto weight: No must leave too few for the count, or exceed the complementary fraction by a whole vote |
| Decisions.PassedIsExact | packages/cw3/src/proposal.rs:55-84 | While open, `is_passed` holds if and only if every possible future sequence of votes passes at expiry |
| Decisions.PassedIsPermanent | packages/cw3/src/proposal.rs:55-84 | While open, a pass holds in every possible future at every later block, also for proposals that never expire |
| Decisions.RejectedIsSound | packages/cw3/src/proposal.rs:86-120 | While open, a rejection excludes a pass in every possible future at every later block |
| Decisions.NeverPassedAndRejected | packages/cw3/src/proposal.rs:57-120 | No state, expired or not, is both passed and rejected |
| Decisions.SureToFailIsAllYesFails | packages/cw3/src/proposal.rs:86-87 | Some possible future passes exactly when the one where all the rest vote Yes does |
| Decisions.RejectedIsExactIff | packages/cw3/src/proposal.rs:86-120 | `is_rejected` means "no possible future passes" exactly outside a gap computed from the current tally |
| Decisions.RejectedIsLateByAtMostOne | packages/cw3/src/proposal.rs:88-119 | Without veto weight the gap is one vote; an absolute count without veto or abstention has none |
| Decisions.RejectionCanBeLate | packages/cw3/src/proposal.rs:96-104 | Fifteen members, half needed, eight against: lost but not rejected |
| Decisions.OpenStatusIsExact | packages/cw3/src/proposal.rs:33-47 | While open, the status shown is Passed if and only if every possible future passes; Rejected only if none does, and always then, exactly outside the gap |
| Decisions.StatusIsByCount | packages/cw3/src/proposal.rs:35-47 | At every block: a stored decision is shown; otherwise Passed, Rejected or Open by exact fractions of the tally, and never Open once expired |
| Decisions.UpdateStoresWhatIsSure | packages/cw3/src/proposal.rs:35-53 | After any run a status update stores Passed before expiry if and only if every possible future passes, Rejected only if none does, and at expiry the result of the count |
| Decisions.EarlyDecisionsAgree | packages/cw3/src/proposal.rs:35-53 | However votes and status updates interleave, the status at expiry is that of one count of the final tally |
| Decisions.StoredDecisionsStand | packages/cw3/src/proposal.rs:35-53 | After any run a stored Passed is confirmed by a new count and a stored Rejected never contradicted |
| Decisions.DecidedStaysDecided | packages/cw3/src/proposal.rs:39-52 | No later vote or update replaces a stored decision |
| Decisions.OrderIsIrrelevant | packages/cw3/src/proposal.rs:148-155 | The tally depends on the multiset of ballots, not on their order |
| Decisions.UpgradeKeepsPass | packages/cw3/src/proposal.rs:57-84 | Raising one ballot of any list from No or Veto to Abstain, or to Yes, never undoes a pass |
| Decisions.MoreYesKeepsPass | packages/cw3/src/proposal.rs:57-84 | One more Yes ballot never undoes a pass |
| Claims.Claims.CreateClaim | packages/controllers/src/claim.rs:36-52 | The claim comes last in the list of its address, after the old list; every other list stays |
| Claims.Claims.ClaimTokens | packages/controllers/src/claim.rs:54-85 | The loop computes the greedy partition: it returns its total, stores what waits, and on a panic stores nothing |
| Claims.Claims.QueryClaims | packages/controllers/src/claim.rs:87-94 | The stored list, or the empty list for an unknown address |
| Claims.GreedyIsConservingAndMaximal | packages/controllers/src/claim.rs:54-85 | Released and waiting merge back to the original list in order; only mature claims go; the total is their sum and under the cap; every mature claim left would break the cap |
| Claims.GreedyDecidesByRunningTotal | packages/controllers/src/claim.rs:65-81 | Each claim is decided by the total released before it, read from the end of the list |
| Claims.SecondCallIsIdle | packages/controllers/src/claim.rs:56-85 | A second call at the same block with the rest of the cap releases nothing and changes nothing |
| Claims.PanicsOnlyOnOverflow | packages/controllers/src/claim.rs:68-75 | No panic when the mature claims fit in 128 bits together; without a cap, a panic exactly when they do not |
| Claims.CallsDrainIff | packages/controllers/src/claim.rs:56-85 | As many calls as mature claims pay them all and keep the rest in place, if and only if each fits under the cap and no call overflows; none does when they fit in 128 bits together or any one fits on top of the cap |
| Claims.DrainsIff | packages/controllers/src/claim.rs:56-85 | Read off the list: without a cap the calls pay everything exactly when the mature claims fit in 128 bits; under a cap with room for any one above it, exactly when each fits under the cap |
| Claims.ClaimsNeverLostNorPaidTwice | packages/controllers/src/claim.rs:38-85 | Over every run and address: created is paid plus outstanding, as multisets and in amount, and nothing is paid early |
| Claims.OutstandingInOrder | packages/controllers/src/claim.rs:46-82 | Over every run the outstanding claims of an address are in the order of creation, and are all of them until something is collected |
| Claims.AddressesAreIndependent | packages/controllers/src/claim.rs:46-50 | What happens to an address depends only on the calls for it |
| State.Storage.Instantiate | contracts/core/src/contract.rs:20-29 | Empty storage with the counter at 1000000 and no configuration |
| State.Storage.GetInvoiceId | contracts/core/src/state.rs:108-112 | One above the stored counter, a missing counter counting as zero; panics at the end of the range |
| State.Storage.SetConfig | contracts/core/src/state.rs:114-128 | Replaces the configuration and nothing else |
| Profile.CreateRequest | contracts/core/src/profile.rs:6-58 | Refuses in the source's order, else records the request with its sender as sent and with its addressee as received |
| Profile.AcceptRequest | contracts/core/src/profile.rs:60-126 | The index search and removal take out the first occurrence on both sides and add both contacts; a missing entry panics |
| Profile.FindIndex | contracts/core/src/profile.rs:77-85 | The search loop finds the first occurrence, or reports none at the length of the list |
| Profile.CreateProfile | contracts/core/src/profile.rs:128-170 | One profile per address, approved and with empty lists |
| Invoicing.CreateInvoice | contracts/core/src/invoice.rs:11-128 | Refuses in the source's order, else stores the invoice, indexes it with both parties, mints its token to the contract and advances the counter |
| Invoicing.PayInvoice | contracts/core/src/invoice.rs:130-216 | Refuses in the source's order, else moves paid, due and status together and forwards the payment, with the token on completion |
| Invoicing.AcceptInvoice | contracts/core/src/invoice.rs:218-240 | Only the payee, only once |
| Calls.RaiseSucceedsIff | contracts/core/src/invoice.rs:22-110 | An invoice is raised if and only if: no funds, another payee, one denom, listed among the configured assets, an approved profile, a contact whose profile is not unverified, no more declared paid than asked, and the counter has room |
| Calls.AnyContactIsBilledIff | contracts/core/src/invoice.rs:22-110 | Under the invariant verification and missing profiles play no role in it |
| Calls.RaiseRefusalsInOrder | contracts/core/src/invoice.rs:21-110 | Each refusal means that its test failed and every earlier one passed |
| Calls.PaySucceedsIff | contracts/core/src/invoice.rs:136-170 | A payment is taken if and only if: one coin, in a denom of the configured assets, by the payee of a stored invoice that is accepted and unpaid, of no more than the rest |
| Calls.PayRefusalsInOrder | contracts/core/src/invoice.rs:136-170 | Each refusal means that its test failed and every earlier one passed |
| Calls.AcceptInvoiceSucceedsIff | contracts/core/src/invoice.rs:218-235 | Taken if and only if the payee accepts a raised invoice; the refusals in order |
| Calls.RequestSucceedsIff | contracts/core/src/profile.rs:12-52 | Recorded if and only if both profiles exist, differ, and none is pending that way; the refusals in order |
| Calls.AcceptRequestSucceedsIff | contracts/core/src/profile.rs:66-121 | Accepted if and only if nothing is attached and the request is on both sides' lists; the refusals in order |
| Calls.ReceivedIsAcceptedIff | contracts/core/src/profile.rs:66-121 | With a mirrored graph the own list of requests received decides alone |
| Calls.ProfileSucceedsIff | contracts/core/src/profile.rs:138-147 | A profile is created once per address, without funds; the configuration can always be set |
| Contract.Execute | contracts/core/src/contract.rs:36-87 | Dispatch; any failure, in the handler after a save or in an emitted message, restores the whole storage |
| Invariants.CallKeepsInv | contracts/core/src/contract.rs:36-87 | Every successful call keeps the mirrored contact graph, the numbering, the indexes and the amounts |
| Invariants.InitialInv | contracts/core/src/contract.rs:20-29 | The initial storage satisfies the invariant |
| Invariants.RequestKeepsMirror | contracts/core/src/profile.rs:12-52 | Requests stay duplicate-free converses of each other |
| Invariants.AcceptKeepsMirror | contracts/core/src/profile.rs:76-121 | Contacts stay symmetric with multiplicity and nobody lists themselves |
| Invariants.AcceptNeverPanics | contracts/core/src/profile.rs:101-115 | With a mirrored graph the second search always finds its entry and the removal never panics |
| Invariants.AcceptUndoesRequest | contracts/core/src/profile.rs:33-121 | Request then accept restores both request lists and adds one contact on each side |
| Invariants.ContactsMayRequestIff | contracts/core/src/profile.rs:23-34 | A request to a contact is refused exactly while one is pending |
| Invariants.AcceptKeepsContactsDistinctIff | contracts/core/src/profile.rs:93-118 | Accepting keeps the contacts free of repetitions exactly when the two were not in contact before |
| Invariants.RaiseRefusals | contracts/core/src/invoice.rs:46-67 | The verification and missing-counterparty refusals never happen |
| Invariants.RaiseKeepsInv | contracts/core/src/invoice.rs:74-123 | A new invoice takes a fresh larger id, extends exactly two indexes in order, and joins mutual contacts |
| Invariants.PayKeepsInv | contracts/core/src/invoice.rs:163-200 | Paid, due and status fit together after every payment |
| Invariants.PaymentsCompose | contracts/core/src/invoice.rs:163-200 | Whenever two payments succeed, one of their sum does too and leaves the same storage |
| Queries.CollectInvoices | contracts/core/src/query.rs:54-71 | The loop returns the listed invoices of the wanted kind in order with their counterparties, and fails exactly when one has no profile |
| Queries.GetPendingInvoices | contracts/core/src/query.rs:43-94 | One response for each position of the two indexes with a stored invoice whose status is not Paid, in index order, with name, owner and company of the payee (raised) or the issuer (received); fails exactly when one of these has no profile; empty for an unknown address |
| Queries.GetExecutedInvoices | contracts/core/src/query.rs:96-147 | The same for status Paid |
| Queries.PendingAndExecutedPartition | contracts/core/src/query.rs:43-147 | Both queries answer, and on each side the pending and the executed answer merge in order to exactly the indexed invoices |
| Queries.AnswersAreScans | contracts/core/src/query.rs:43-147 | Under the invariant each answered list is exactly the stored invoices with that party and that kind of status, once each, by increasing id |
| Queries.LoadContacts | contracts/core/src/query.rs:235-244 | One answer per listed contact, in order; fails exactly when one has no profile |
| Queries.GetPendingContactRequests | contracts/core/src/query.rs:228-246 | One response per received request in order, or a failure; empty for an unknown address |
| Queries.GetSentContactRequests | contracts/core/src/query.rs:248-265 | One response per sent request in order, or a failure; empty for an unknown address |
| Queries.GetAllContacts | contracts/core/src/query.rs:267-284 | One response per contact in order, or a failure; empty for an unknown address |
| Queries.ContactQueriesNeverFail | contracts/core/src/query.rs:228-284 | Under the invariant all three contact queries succeed, because everybody on a list has a profile |
| Queries.AddInvoice | contracts/core/src/query.rs:164-180 | The find-or-push loop keeps one coin per denom in first-seen order with the exact sum; it panics exactly on an overpaid invoice or an overflow |
| Queries.SumByDenom | contracts/core/src/query.rs:156-182 | The summary of the unpaid invoices of an index; it panics exactly when one is overpaid or a sum exceeds 128 bits |
| Queries.GetTotalReceivables | contracts/core/src/query.rs:150-183 | The summary for the generated invoices |
| Queries.GetTotalPayables | contracts/core/src/query.rs:185-218 | The summary for the assigned invoices |
| Queries.FirstSeenIsDistinct | contracts/core/src/query.rs:167-179 | The answered denoms are pairwise distinct and are exactly those of the list |
| Queries.FirstSeenInOrder | contracts/core/src/query.rs:174-179 | A denom answered earlier appears in the list earlier |
| Queries.TotalsMatchScan | contracts/core/src/query.rs:157-216 | The sum over an index is the sum over all unpaid invoices of the map with that party |
| Queries.AnswerMatchesScan | contracts/core/src/query.rs:157-216 | Each answered coin is the scan of its denom, once, and a denom not answered has nothing outstanding |
| Queries.TotalsNeverUnderflow | contracts/core/src/query.rs:169-177 | No subtraction underflows |
| Queries.DoubleEntry | contracts/core/src/query.rs:150-218 | All receivables, all payables and all open invoices are the same amount in every denom |
| Runs.ReachableInv | contracts/core/src/contract.rs:20-87 | Every reachable storage satisfies the invariant |
| Runs.BooksAlwaysBalance | contracts/core/src/query.rs:150-218 | Double entry in every reachable state |
| Runs.QueriesAlwaysAnswer | contracts/core/src/query.rs:43-284 | In every reachable state no invoice or contact query fails, no total underflows, and the invoice queries scan the invoice map |
| Replay.DenomsWereListed | contracts/core/src/invoice.rs:38-148 | Over every run the configuration is the last one set, and each payment and each receivable was in a denom listed at the time of the call |
| Replay.InvoicesAreReplayed | contracts/core/src/invoice.rs:69-200 | Over every run each invoice, field by field, is what the call that raised it, its acceptance and its payments make it |
| Replay.IndexesAreReplayed | contracts/core/src/invoice.rs:90-96 | Over every run the two indexes list the ids raised and received, in the order of the calls |
| Replay.ListsAreReplayed | contracts/core/src/profile.rs:33-121 | Over every run the requests sent, requests received and contacts of an address are, in order, those of a replay of requests and acceptances |
| Replay.ProfilesAreAsRegistered | contracts/core/src/profile.rs:149-164 | Over every run a profile exists exactly for the registered addresses, approved, and each of its texts is the one it was registered with |
| Runs.EveryInvoiceIsBooked | contracts/core/src/invoice.rs:88-235 | Over every run the forwarded payments of an invoice go to its issuer and sum to its amount paid, at most the receivable; its token is minted once and handed over once, on becoming Paid; its statuses are a prefix of Raised, Accepted, PartiallyPaid..., Paid |
| Runs.PaymentInOwnDenomIff | contracts/core/src/invoice.rs:146-176 | A payment raises the amount paid by as much as what was sent in the receivable's denom exactly when it is of that denom or empty |
| Runs.PaidInOwnDenomIff | contracts/core/src/invoice.rs:146-176 | Over every run, payments in the receivable's denom sum to the amount paid exactly when no payer attached a positive amount of another |
| Runs.AnyAcceptedDenomSettles | contracts/core/src/invoice.rs:143-179 | The rest of an accepted invoice paid in any accepted denom makes it Paid |
| Witnesses.SettledInAnotherDenom | contracts/core/src/invoice.rs:143-210 | A run in which an invoice is paid in full and its issuer receives nothing of its denom |
| Runs.OnlyThePartiesAct | contracts/core/src/invoice.rs:88-235 | Over every run an invoice is raised by its issuer, and accepted and paid by its payee only |
| Runs.OwnerRestrictsNothing | contracts/core/src/state.rs:114-128 | Every call, `SetConfig` included, is answered as if the configured owner were any other address |
| Contacts.ListedOncePerAcceptance | contracts/core/src/profile.rs:93-118 | Over every run each lists the other once per request accepted between them |
| Contacts.ContactsAreDistinctIff | contracts/core/src/profile.rs:28-118 | Over every run a contact list has no repetition exactly when with nobody more than one request was accepted |
| Witnesses.CrossingRequestsListTwice | contracts/core/src/profile.rs:28-118 | A run with two crossing requests, both accepted, after which each lists the other twice |
| Custody.MintGoesThroughIff | contracts/core/src/invoice.rs:96-123 | The token contract takes a mint exactly when the contract is the minter of the configured collection; the id is never in use |
| Custody.LastPaymentGoesThroughIff | contracts/core/src/invoice.rs:143-194 | The last payment succeeds exactly when the bank takes it and the contract may move the id in the configured collection: always in the one it was minted in, never in another one the contract mints in |
| Custody.CustodyFollowsStatusIff | contracts/core/src/invoice.rs:108-194 | The contract owns the token until the step that makes the invoice paid, and the issuer then does exactly when the collection configured before the step is the one it was minted in |
| Custody.StrandedForever | contracts/core/src/invoice.rs:181-194 | A token not handed over by the last payment is the contract's after any further calls |
| Custody.MovedCollectionStrandsToken | contracts/core/src/invoice.rs:181-194 | With another collection named before the last payment, it completes exactly when the contract may move that id there, is refused without effect otherwise, and the contract keeps the token either way |
| Custody.NoTokenMessageIsRefused | contracts/core/src/invoice.rs:96-194 | If the collection never changes and the contract mints in it, no mint and no hand-over is ever refused |
| Custody.CustodyIsStatus | contracts/core/src/invoice.rs:108-194 | If the collection never changes, the owner of each token is a function of the status: nobody, the contract until paid, then the issuer until others act on it |
| Witnesses.LastPaymentRefused | contracts/core/src/invoice.rs:181-194 | A run after which the payee of an open invoice can no longer pay it |
| Witnesses.TokenIsStranded | contracts/core/src/invoice.rs:181-194 | A run after which an invoice is paid and its token still belongs to the contract |
| Runs.InvoicesOnlyProgress | contracts/core/src/invoice.rs:156-235 | Over every run the terms never change, paid and status never go back, and a paid invoice is final |
| Runs.PaymentReducesDebt | contracts/core/src/invoice.rs:166-200 | A payment reduces what is owed by exactly its amount and never below zero |
| Runs.DuePlusPaidIff | contracts/core/src/invoice.rs:69-86 | Due and paid add up to the receivable after any payment, and at creation exactly when nothing is declared paid |
| Runs.IdsAfterCreations | contracts/core/src/state.rs:108-112 | After n creations the ids are exactly 1000001 + 2k for k below n and the counter is 1000000 + 2n |
| Runs.ContractKeepsOnlyStrayFunds | contracts/core/src/invoice.rs:202-210 | In each denom the contract keeps exactly the funds sent with the three calls that ignore them, hence nothing of any payment |

## Left out

- Serialisation, response attributes, address validation and the bodies of emitted messages: messages are Mint, TransferNft and Send events.
- Titles, descriptions, deposits and messages of a proposal: no decision reads them.
- The voting contract around a proposal (who may vote, opening, executing, closing): the repository does not contain it. Runs assume what its interface needs: no vote after expiry and no more weight than the members have.
- Proposals that are not well-formed: their panics are modelled, but the theorems are about well-formed ones.
- The token contract itself, cw721-base, is not part of the repository: of it, owners, the contract's right to move a token and the sole minter are modelled. Approvals are one flag of a token, set by what others do; collections that make the contract their minter later are not modelled.
- The bank: whether it takes a payment is the environment's choice.
- Bank balances before a call: funds sent with a call are taken to have arrived, as the chain guarantees.
- `migrate`, contract versions, and the single-item queries for the configuration, the counter, one invoice and one profile: one storage read each.
- `admin.rs`, `hooks.rs`, `deposit.rs` and the interface packages cw1, cw2, cw4, cw20 and cw721: single checks or declarations.
- KYC transitions: the code has none; the checks are modelled and shown never to refuse.
- Profile.CreateRequest: promises nothing about the storage of a failed call, because the source has saved half of it; `Execute` restores it.
- Profile.AcceptRequest: promises nothing about the storage of a failed call; `Execute` restores it.
- Invoicing.CreateInvoice: promises nothing about the storage of a failed call; `Execute` restores it.
- Queries.CollectInvoices: the source writes this loop four times; it is modelled once with the status and the side as parameters.
- Queries.SumByDenom: the source writes this loop twice; it is modelled once, with the search in its own method.

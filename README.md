# Standard Charity backend: donation-expenditure bookkeeping

This project models the part of the Standard Charity backend that keeps the
books between the charity's ledger contract and its redis cache.

- **Cache (`Cache`).** The cache is one store object. It holds the scalar keys
  `nextDonationToExpend`, `pendingNextDonationToExpend`, `isCreatingExpenditure`,
  `isCreatingRefunds` and `standardCharityContractBalance`. It also holds the
  spotlight aggregates that `newDonation` refreshes, and the lists
  `donationTrackerItems`, `allDonations`, `pendingExpendedDonations` and
  `pendingRefunds`.
  - Lists are kept in redis order: `LPUSH` puts each item at the head in turn,
    so one push of `items` puts `reverse(items)` in front of the list.
  - A ghost log of written keys records the order of the writes.
- **FIFO expenditure allocation (`ExpenditureAllocation`).** One expenditure's
  wei is spread over the donations in donation-tracker order, starting at the
  cached pointer.
  - Each turn does one of two things. It skips a donation with nothing left.
  - Or it takes `min(remaining, available)` wei from that donation and queues a
    pending expended donation. The item's USD and plates are shares of the
    expenditure's totals.
  - The pointer is written only to an index that has a tracker item. The last
    step records a pending pointer for the ledger.
  - The run is a loop of turns (`CreatePendingExpendedDonation`). It is proved
    against the recursive specification `Step`/`Allocate`. Conservation, bounds,
    pointer monotonicity and the shape of the last step are proved about that
    specification.
- **Ledger helpers (`LedgerHelpers`).**
  - One retry budget of 10 is shared by every call of a helper instance.
  - Removal of one entry from a pending queue filters it, deletes the key and
    pushes the survivors back.
  - Writes delete their pending item in every case.
- **Refund sweep (`RefundSweep`).** A donation of the last 27 days that still
  holds wei becomes a pending refund. The refund queue is replaced by the new
  refunds, and the lock is released when there is nothing to refund.
- **Expenditure admission (`ExpenditureAdmission`).**
  - The two locks are checked first, then the expenditure lock is taken.
  - The request is checked in the source's order. Every refusal after the lock
    was taken releases it; success keeps it.
  - The zip's entries are classified into exactly one video and one receipt.
- **Ledger events and reads (`LedgerEvents`, `LedgerReads`).**
  - An event goes to a handler by its first topic. `newDonation` writes the
    donation and five aggregates.
  - The reads have guards and per-getter defaults.
  - The tracker string `"<num>-<hex>"` is parsed into a tracker item.
- **Read-side routes (`DonationListing`, `ExpendedDonationListing`, `Receipts`,
  `DonationGroups`).**
  - Listings are ordered by timestamp or by number, with a case-insensitive
    address filter.
  - Grouping follows JavaScript's own-key order and keeps per-group totals.
  - The receipt sums USD cents in a strict, case-sensitive window.
- **Shared pieces (`Js`, `Records`).**
  - `Js` holds the JavaScript and lodash semantics the code relies on:
    `Number()` on digit strings, `toLowerCase`, `filter`, the stable `orderBy`,
    `slice`, and `LPUSH` order.
  - `Records` holds the records themselves.

Ledger calls, the clock, the request's signature check, the ETH price, the zip
reader, S3, the PDF generator and luxon's date check are parameters of the
operations that use them.

Where the design description and the code differ, the model follows the code:

- **Retry budget.** A helper instance fetches once and then retries up to 10
  times in total, across all of its methods. It does not make 10 attempts per
  call.
- **Writes after an exhausted budget.** `createExpendedDonation` and
  `refundDonation` report success even when every retry came back empty.
- **Last step on an exact fit.** The result of the pointer write is ignored.
  The run returns true even when no tracker item follows, and the pointer then
  stays where it was.
- **Receipt matching.** Addresses are compared with their letter case, and both
  ends of the time window are excluded.
- **Zero-USD messages.** A `usd` given as the string `"0"` is truthy and
  numeric, so the request is accepted with 0 USD (`ZeroStringAccepted`).
- **Repushed queues.** A delete-and-repush reverses the order of the surviving
  entries each time.
- **Refund window.** The design describes refunding donations older than a
  27-day retention window. The code skips every donation older than the cutoff
  (`src/routes/Refunds/CheckForRefunds.ts:58`), so it refunds the donations of
  the last 27 days instead (`RefundSweep.SweepTakesRecentDonations`).
- **Refund lock.** The design requires a new workflow to check both locks before
  it starts. The refund sweep sets `isCreatingRefunds` without reading either
  lock (`src/routes/Refunds/CheckForRefunds.ts:17`), so a sweep can start while
  an expenditure or another sweep is running (`RefundSweep.CheckForRefunds.Init`).

The redis methods that read and push whole lists (`getAllDonations`,
`pushToPendingExpendedDonations`, `setIsCreatingExpenditure`, …) are not part of
this model's source files. They are modelled with the list semantics of
`src/redis/instance.ts`, and a list read returns the list in redis order.

## Model

| member | source | states |
|---|---|---|
| Cache.LPush | src/redis/instance.ts:87-101 | pushing `items` gives `reverse(items)` in front of the list: one more element per item, and every old and new element kept (multiset) |
| Cache.Store.constructor | src/redis/index.ts:8-20 | a store starts with the given contents and no writes |
| Cache.Store.SetNextDonationToExpend | src/routes/ExpendedDonations/PendingExpendedDonations.ts:215-218 | only `nextDonationToExpend` changes, to the new pointer, with one write of that key |
| Cache.Store.SetPendingNextDonationToExpend | src/routes/ExpendedDonations/PendingExpendedDonations.ts:235 | only the pending pointer changes |
| Cache.Store.SetIsCreatingExpenditure | src/routes/Expenditures/CreateExpenditure.ts:70 | only the expenditure lock changes |
| Cache.Store.SetIsCreatingRefunds | src/routes/Refunds/CheckForRefunds.ts:17 | only the refund lock changes |
| Cache.Store.SetStandardCharityContractBalance | src/redis/index.ts:157-168 | the cached balance becomes the ledger's and reads back as it, nothing else changes |
| Cache.Store.SetTotalNumDonations | src/redis/index.ts:78-89 | the cached count becomes the ledger's |
| Cache.Store.SetMaxDonation | src/redis/index.ts:186-198 | the maximum donation is written only when the ledger returned one |
| Cache.Store.SetLatestDonation | src/redis/index.ts:222-234 | the latest donation is written only when the ledger returned one |
| Cache.Store.SetTotalDonationsEth | src/redis/index.ts:289-300 | the cached ETH total becomes the ledger's |
| Cache.Store.PushDonation | src/Infura/StandardCharity/ContractEvents.ts:134 | the donation goes to the head of `allDonations` |
| Cache.Store.PushToPendingExpendedDonations | src/Infura/StandardCharity/Helpers.ts:279 | the queue becomes `reverse(items)` followed by the old queue |
| Cache.Store.PushToPendingRefunds | src/routes/Refunds/CheckForRefunds.ts:33 | the refund queue becomes `reverse(items)` followed by the old queue |
| Cache.Store.DeletePendingExpendedDonations | src/redis/instance.ts:103-113 | the pending expended-donation queue becomes empty, nothing else changes |
| Cache.Store.DeletePendingRefunds | src/redis/instance.ts:103-113 | the pending refund queue becomes empty, nothing else changes |
| ExpenditureAllocation.FindTracker | src/routes/ExpendedDonations/PendingExpendedDonations.ts:65-74 | a found item is in the tracker with the asked index; none found means no item has that index |
| ExpenditureAllocation.FindDonation | src/routes/ExpendedDonations/PendingExpendedDonations.ts:76-90 | a found donation is in the list and names the tracker item (address ignoring case, number); none found means no donation does |
| ExpenditureAllocation.FindTrackerFirst | src/routes/ExpendedDonations/PendingExpendedDonations.ts:67-70 | like lodash `find`, the lookup returns the first tracker item with the asked index: no item before it has that index |
| ExpenditureAllocation.FindDonationFirst | src/routes/ExpendedDonations/PendingExpendedDonations.ts:78-85 | like lodash `find`, the lookup returns the first donation that names the tracker item: no donation before it does |
| ExpenditureAllocation.Share | src/routes/ExpendedDonations/PendingExpendedDonations.ts:125-133 | the share is NaN exactly when the expenditure's wei is 0, and otherwise is `total * take / wei` rounded to the nearest integer, halves up |
| ExpenditureAllocation.NoPointerNoItems | src/routes/ExpendedDonations/PendingExpendedDonations.ts:59-63 | an absent or zero pointer gives the error string, with nothing pushed and nothing written |
| ExpenditureAllocation.SkipExhausted | src/routes/ExpendedDonations/PendingExpendedDonations.ts:92-117 | a donation with nothing available pushes nothing; the run goes on from pointer+1 with the same remaining wei, or stops with an error when no tracker item is there |
| ExpenditureAllocation.Overdraw | src/routes/ExpendedDonations/PendingExpendedDonations.ts:148-166 | a donation with less available than remains is drained by one item of all its available wei, and the run goes on from pointer+1 with the rest |
| ExpenditureAllocation.LastStep | src/routes/ExpendedDonations/PendingExpendedDonations.ts:168-186 | the last step pushes one item of the remaining wei and returns true; an exact fit moves the pointer on, a partial one keeps it; the pending pointer is written exactly when the new pointer differs from the ledger's |
| ExpenditureAllocation.Conservation | src/routes/ExpendedDonations/PendingExpendedDonations.ts:119-186 | a run that returns true pushed items whose wei adds up exactly to the wei it had to allocate |
| ExpenditureAllocation.RoundingBound | src/routes/ExpendedDonations/PendingExpendedDonations.ts:119-186 | in a run that returns true, the items' USD (and plates) differ from the expenditure's share of the allocated wei by at most half a unit per item |
| ExpenditureAllocation.ExpenditureRounding | src/routes/ExpendedDonations/PendingExpendedDonations.ts:53-192 | an allocated expenditure is split into items whose wei add up to its wei exactly and whose USD and plates add up to its USD and plates within half a unit per item |
| ExpenditureAllocation.ItemsBounded | src/routes/ExpendedDonations/PendingExpendedDonations.ts:119-146 | every pushed item takes at most the remaining wei and at most what its donation had available, something when wei remains, from a donation the tracker names at or after the pointer; its USD and plates are shares of the constructor totals |
| ExpenditureAllocation.PointerMonotone | src/routes/ExpendedDonations/PendingExpendedDonations.ts:99-218 | every pointer the run writes is at or after the pointer it started from and has a tracker item; a pending pointer is written only as the final pointer, only when it differs from the ledger's, and only when the run returns true |
| ExpenditureAllocation.Stuck | src/routes/ExpendedDonations/PendingExpendedDonations.ts:59-90 | without a tracker item or donation at the pointer, nothing is pushed or written and the run returns an error |
| ExpenditureAllocation.TwoDonations | src/routes/ExpendedDonations/PendingExpendedDonations.ts:53-192 | 1000 wei against donations with 600 and 500 available: 600 from the first and 400 from the second, the first item worth 30 of the 50 USD and the second 2 of the 4 plates, the pointer left on the second, and the pending pointer written unless the ledger already points there |
| ExpenditureAllocation.AppliedAfter | src/routes/ExpendedDonations/PendingExpendedDonations.ts:144-160 | the cache after the first turns, followed by the rest of the run, is the cache after the whole run |
| ExpenditureAllocation.PendingExpendedDonations.constructor | src/routes/ExpendedDonations/PendingExpendedDonations.ts:17-30 | the expenditure's wei, USD, number and plates are fixed at construction |
| ExpenditureAllocation.PendingExpendedDonations.Init | src/routes/ExpendedDonations/PendingExpendedDonations.ts:32-51 | true exactly when the allocation of the whole expenditure returns true; the cache is the cache after that allocation |
| ExpenditureAllocation.PendingExpendedDonations.SetNewDonationToExpend | src/routes/ExpendedDonations/PendingExpendedDonations.ts:194-244 | without a tracker item at the new index it returns the "no more donations" error and changes nothing; otherwise it writes the pointer and, on the last step, the pending pointer unless the ledger already points there |
| ExpenditureAllocation.PendingExpendedDonations.SkipTurn | src/routes/ExpendedDonations/PendingExpendedDonations.ts:99-117 | the turn moves the pointer on to a later tracker index with the same remaining wei, or finishes with the specification's result |
| ExpenditureAllocation.PendingExpendedDonations.DrainTurn | src/routes/ExpendedDonations/PendingExpendedDonations.ts:148-166 | the turn pushes the drained item and moves the pointer on, or finishes as the specification does |
| ExpenditureAllocation.PendingExpendedDonations.LastTurn | src/routes/ExpendedDonations/PendingExpendedDonations.ts:168-186 | the turn finishes the run, leaving the cache as the specification's last step does |
| ExpenditureAllocation.PendingExpendedDonations.Turn | src/routes/ExpendedDonations/PendingExpendedDonations.ts:59-186 | a turn with no usable pointer, tracker item or donation finishes with the specification's error and changes nothing; otherwise it finishes or moves strictly forward as the specification does |
| ExpenditureAllocation.PendingExpendedDonations.CreatePendingExpendedDonation | src/routes/ExpendedDonations/PendingExpendedDonations.ts:53-192 | the loop returns the specification's result, and the cache is the old cache with the specification's items pushed and its pointers written |
| LedgerHelpers.Retried | src/Infura/StandardCharity/Helpers.ts:37-45 | a call's retries never exceed the budget, and its last answer is the attempt after that many retries |
| LedgerHelpers.RetriedStops | src/Infura/StandardCharity/Helpers.ts:37-54 | every attempt before the last asked for a retry, and a last answer that still asks for one means the budget is spent |
| LedgerHelpers.Found | src/Infura/StandardCharity/Helpers.ts:33-66 | a getter returns a value exactly when its last answer is a value that does not ask for a retry, and then that value |
| LedgerHelpers.GetDonationMeaning | src/Infura/StandardCharity/Helpers.ts:31-55 | a null fetch is not retried; a returned donation has a nonzero value and every attempt before it had value '0'; null otherwise means the fetch failed or the budget ran out |
| LedgerHelpers.GetExpendedDonationMeaning | src/Infura/StandardCharity/Helpers.ts:163-183 | a returned expended donation never has 0 wei; every retried answer was null or had 0 wei; and a null result after a last answer that did not throw means the budget is spent |
| LedgerHelpers.WithoutExpendedMeaning | src/Infura/StandardCharity/Helpers.ts:253-281 | removal keeps exactly the entries not matching donator (ignoring case) and number, each as often as before; when none matches, the queue is only reversed |
| LedgerHelpers.WithoutRefundMeaning | src/Infura/StandardCharity/Helpers.ts:329-349 | the same removal rule on the refund queue, by address and number |
| LedgerHelpers.WithoutExpendedTwice | src/Infura/StandardCharity/Helpers.ts:244-288 | removing the same entry twice leaves the same entries (as a multiset) as removing it once |
| LedgerHelpers.ExhaustedWriteReportsSuccess | src/Infura/StandardCharity/Helpers.ts:209-231 | a write that always answers falsy is retried exactly the whole budget and then treated as done |
| LedgerHelpers.Helpers.constructor | src/Infura/StandardCharity/Helpers.ts:18-24 | the retry budget starts at 10 |
| LedgerHelpers.Helpers.Retry | src/Infura/StandardCharity/Helpers.ts:37-45 | the call answers what the specification's last attempt answers, and the shared budget shrinks by its retries (never below 0) |
| LedgerHelpers.Helpers.GetDonation | src/Infura/StandardCharity/Helpers.ts:26-72 | `getDonation` returns the specification's found donation and spends its retries from the shared budget |
| LedgerHelpers.Helpers.GetDonationTracker | src/Infura/StandardCharity/Helpers.ts:74-110 | retries on a falsy answer; a returned item carries the asked index |
| LedgerHelpers.Helpers.GetExpenditure | src/Infura/StandardCharity/Helpers.ts:112-153 | retries on a falsy answer and returns the last answer's value |
| LedgerHelpers.Helpers.GetExpendedDonation | src/Infura/StandardCharity/Helpers.ts:155-199 | retries on a falsy answer or 0 wei, spends those retries from the shared budget, and returns the last answer only when it is a nonzero value |
| LedgerHelpers.Helpers.DeletePendingExpendedDonation | src/Infura/StandardCharity/Helpers.ts:244-288 | the queue becomes the survivors in reversed order; the key is always deleted and written again only when survivors remain; returns true |
| LedgerHelpers.Helpers.DeletePendingRefund | src/Infura/StandardCharity/Helpers.ts:320-356 | the same for the refund queue |
| LedgerHelpers.Helpers.CreateExpendedDonation | src/Infura/StandardCharity/Helpers.ts:201-242 | after the retries the pending item is removed in every case, and the result is false only when the write threw |
| LedgerHelpers.Helpers.RefundDonation | src/Infura/StandardCharity/Helpers.ts:290-318 | the same protocol for a refund and the refund queue |
| RefundSweep.Cutoff | src/routes/Refunds/CheckForRefunds.ts:43-49 | the cutoff is the clock rounded to the nearest second, less 27 days of seconds |
| RefundSweep.BuildPendingRefundsConcat | src/routes/Refunds/CheckForRefunds.ts:55-79 | the sweep keeps the order of the donation list |
| RefundSweep.BuildPendingRefundsMembers | src/routes/Refunds/CheckForRefunds.ts:58-74 | a refund is produced exactly for each donation not older than the cutoff with a nonzero balance, carrying its address, number and value less expended and refunded wei; no refund is of 0 wei |
| RefundSweep.NothingToRefund | src/routes/Refunds/CheckForRefunds.ts:58-68 | a list of only old or settled donations sweeps to nothing |
| RefundSweep.SweepTakesRecentDonations | src/routes/Refunds/CheckForRefunds.ts:43-74 | a donation with wei left is refunded in full when made within the last 27 days, and not when made before them |
| RefundSweep.CheckForRefunds.constructor | src/routes/Refunds/CheckForRefunds.ts:11-13 | the sweep works on the given store |
| RefundSweep.CheckForRefunds.EndCheckForRefunds | src/routes/Refunds/CheckForRefunds.ts:89-97 | only the refund lock changes, to false |
| RefundSweep.CheckForRefunds.Init | src/routes/Refunds/CheckForRefunds.ts:15-39 | the lock is taken without looking at either lock; an empty sweep releases it and submits nothing; otherwise the queue is replaced by the sweep (delete, then push), the first refund is submitted and the lock stays held |
| LedgerEvents.FindTopic | src/Infura/StandardCharity/ContractEvents.ts:61-64 | a found registration has the topic; none found means no registration has it |
| LedgerEvents.Dispatch | src/Infura/StandardCharity/ContractEvents.ts:51-93 | only a well-formed event reaches a handler |
| LedgerEvents.DispatchMeaning | src/Infura/StandardCharity/ContractEvents.ts:51-93 | an event reaches a handler exactly when its first topic is present and registered, and then the handler of the first registration of that topic |
| LedgerEvents.DispatchDistinct | src/Infura/StandardCharity/ContractEvents.ts:80-88 | two registrations with distinct topics each dispatch to their own handler |
| LedgerEvents.ContractEvents.constructor | src/Infura/StandardCharity/ContractEvents.ts:43-47 | the registered topics are fixed at construction |
| LedgerEvents.ContractEvents.NewDonation | src/Infura/StandardCharity/ContractEvents.ts:99-148 | a decode failure, a missing donator or number, or a failed fetch writes nothing; otherwise the donation is pushed and count, maximum and latest (when the ledger has them), ETH total and balance are written in that order |
| LedgerEvents.ContractEvents.Ignore | src/Infura/StandardCharity/ContractEvents.ts:150-154 | the expenditure, expended-donation and refund handlers change nothing |
| LedgerEvents.ContractEvents.Init | src/Infura/StandardCharity/ContractEvents.ts:49-97 | the handler run is the dispatched one; a new donation changes the cache as `newDonation` does, and any other event leaves it unchanged |
| LedgerReads.CallStandardCharityContract | src/Infura/StandardCharity/ContractFunctions.ts:37-99 | nothing is sent without a wallet or call data; a result needs a wallet, call data and a response; `value` is sent exactly when nonzero |
| LedgerReads.CountOrZeroRoundTrip | src/Infura/StandardCharity/ContractFunctions.ts:101-153 | a count the ledger printed in decimal reads back as that count; a missing result or field reads as 0 |
| LedgerReads.AmountOrZeroRoundTrip | src/Infura/StandardCharity/ContractFunctions.ts:155-171 | an amount is passed on as the ledger's decimal string, which `Number()` reads back as the amount; a missing amount is "0", which reads as 0 |
| LedgerReads.NextDonationToExpendRoundTrip | src/Infura/StandardCharity/ContractFunctions.ts:229-245 | the pointer the ledger printed reads back as itself; a missing result or field is null |
| LedgerReads.NextDonationToExpend | src/Infura/StandardCharity/ContractFunctions.ts:229-245 | null exactly when the result is missing, but 0 when the getter throws |
| LedgerReads.Spotlight | src/Infura/StandardCharity/ContractFunctions.ts:173-227 | a donation only when donator, value and timestamp are all present, with those values; always one when the value is a decimal string |
| LedgerReads.BeforeDash | src/Infura/StandardCharity/ContractFunctions.ts:315 | the first part of the split has no '-' in it |
| LedgerReads.AfterDash | src/Infura/StandardCharity/ContractFunctions.ts:315 | there is a second part exactly when the string has a '-' |
| LedgerReads.ParseDonationTracker | src/Infura/StandardCharity/ContractFunctions.ts:301-331 | a parsed item carries the asked index and an address starting "0x"; a missing result parses to null |
| LedgerReads.ParseDonationTrackerRoundTrip | src/Infura/StandardCharity/ContractFunctions.ts:311-325 | the string `"<k>-<hex>"` parses back to number k and address `0x<hex>` |
| LedgerReads.ParseDonationTrackerNeedsDash | src/Infura/StandardCharity/ContractFunctions.ts:315-319 | a string without '-' is refused |
| LedgerReads.GetDonation | src/Infura/StandardCharity/ContractFunctions.ts:333-372 | a donation exactly when all eight fields are present and nonempty, and then exactly those fields, unchanged |
| ExpenditureAdmission.ExtnameOfName | src/routes/Expenditures/CreateExpenditure.ts:283 | the extension of `dir/stem.ext` is `.ext`, whatever the directory |
| ExpenditureAdmission.ExtnameWithoutDot | src/routes/Expenditures/CreateExpenditure.ts:283 | a name without '.' has no extension |
| ExpenditureAdmission.KeptVideo | src/routes/Expenditures/CreateExpenditure.ts:278-297 | a file whose extension is a video format in any letter case is kept and classified as the video, with its extension as written |
| ExpenditureAdmission.UpperCaseVideoKept | src/routes/Expenditures/CreateExpenditure.ts:278-297 | "clips/Clip.MP4" is kept as the video, with extension ".MP4" |
| ExpenditureAdmission.Classify | src/routes/Expenditures/CreateExpenditure.ts:278-297 | no more files than entries |
| ExpenditureAdmission.ClassifyMembers | src/routes/Expenditures/CreateExpenditure.ts:278-297 | a file is produced exactly from each entry that is not hidden and has an accepted extension in any case |
| ExpenditureAdmission.UnzipFileAccepts | src/routes/Expenditures/CreateExpenditure.ts:299-334 | a zip is accepted exactly when its kept entries hold one video, one receipt and no zero hash, and then both can be found |
| ExpenditureAdmission.NoVideoComesFirst | src/routes/Expenditures/CreateExpenditure.ts:299-305 | a zip without a kept video is refused for that reason first |
| ExpenditureAdmission.FindType | src/routes/Expenditures/CreateExpenditure.ts:197-211 | a found file has the type; none found means no file has it |
| ExpenditureAdmission.NumberIfValid | src/routes/Expenditures/CreateExpenditure.ts:128-146 | a number passes exactly when nonzero, as itself; a string exactly when nonempty and numeric, as its decimal value; `true` passes as 1; a missing or false value never |
| ExpenditureAdmission.ZeroStringAccepted | src/routes/Expenditures/CreateExpenditure.ts:140-146 | the string "0" passes as 0 |
| ExpenditureAdmission.NumberIfValidRoundTrip | src/routes/Expenditures/CreateExpenditure.ts:128-146 | an amount printed in decimal, or a nonzero number, is read back as itself |
| ExpenditureAdmission.Validate | src/routes/Expenditures/CreateExpenditure.ts:74-126 | success is a 200; every refusal is a 400 or 500 with a message |
| ExpenditureAdmission.ValidateAmounts | src/routes/Expenditures/CreateExpenditure.ts:128-177 | the same status rule for the amount checks |
| ExpenditureAdmission.Admit | src/routes/Expenditures/CreateExpenditure.ts:179-252 | the stored plates, USD and wei are the ones read, and the same status rule |
| ExpenditureAdmission.ValidateAccepts | src/routes/Expenditures/CreateExpenditure.ts:74-252 | a request is accepted exactly when every check passes: files, message, signature, wallet, verification, parse, plates and USD that pass `NumberIfValid` (a nonzero JSON number, `true`, or a nonempty digit string, "0" included), zip, price, wei, an accepted zip, upload, wei within the balance, ledger write |
| ExpenditureAdmission.AdmitOverdraft | src/routes/Expenditures/CreateExpenditure.ts:226-232 | once the amounts are read, a balance below the wei refuses an otherwise accepted submission with 400 and the overdraft message |
| ExpenditureAdmission.OverdraftRefused | src/routes/Expenditures/CreateExpenditure.ts:226-232 | an otherwise accepted request against a balance below its wei is refused with 400 and the overdraft message |
| ExpenditureAdmission.UncachedBalanceRefusesSpending | src/routes/Expenditures/CreateExpenditure.ts:226-232 | while no balance is cached, every otherwise accepted request that spends wei is refused with 400 as an overdraft |
| ExpenditureAdmission.CreateExpenditure.constructor | src/routes/Expenditures/CreateExpenditure.ts:43-48 | the amounts start unset |
| ExpenditureAdmission.CreateExpenditure.SendExpenditureError | src/routes/Expenditures/CreateExpenditure.ts:416-427 | releases the expenditure lock and replies with the failure |
| ExpenditureAdmission.CreateExpenditure.Init | src/routes/Expenditures/CreateExpenditure.ts:50-260 | a held lock of either kind refuses with 400 and changes nothing; otherwise the lock is taken, the reply is the validation's, and the lock is released on every refusal and kept on success |
| ExpenditureAdmission.CreateExpenditure.Check | src/routes/Expenditures/CreateExpenditure.ts:72-126 | the checks after the lock, releasing it on a refusal, storing the amounts read |
| ExpenditureAdmission.CreateExpenditure.ReadAmounts | src/routes/Expenditures/CreateExpenditure.ts:128-177 | the amounts are stored as they are read, and a refusal releases the lock |
| ExpenditureAdmission.CreateExpenditure.Submit | src/routes/Expenditures/CreateExpenditure.ts:179-252 | the zip, upload, balance and ledger checks, releasing the lock on a refusal and keeping it on success |
| DonationListing.AllDonationsReply | src/routes/Donations/GetAllDonations.ts:9-49 | a page error is a 400 with its message; otherwise the page of the listed donations and their full count |
| DonationListing.ListedMeaning | src/routes/Donations/GetAllDonations.ts:21-31 | the listing is in timestamp order and holds exactly the donations of the address (ignoring case), or all of them, each as often as in the cache |
| DonationListing.TotalCountsMatches | src/routes/Donations/GetAllDonations.ts:33-40 | `total` counts every matching donation, not just the page |
| ExpendedDonationListing.ExpendedReply | src/routes/ExpendedDonations/GetAllExpendedDonations.ts:9-62 | a page error, then a donation number that is not a number, are 400s; otherwise the page and the full count |
| ExpendedDonationListing.ListedMeaning | src/routes/ExpendedDonations/GetAllExpendedDonations.ts:21-44 | the listing is in expended-donation order and holds exactly the expended donations of the address (ignoring case) and, only with an address, of the number |
| ExpendedDonationListing.NotANumberRefused | src/routes/ExpendedDonations/GetAllExpendedDonations.ts:33-39 | "12a" is refused with 400 even when nothing would match |
| Receipts.TotalCentsExpended | src/routes/Receipts/GetReceipt.ts:58-70 | the loop's total is the USD cents expended from the donations in the window |
| Receipts.ReceiptReply | src/routes/Receipts/GetReceipt.ts:22-104 | the checks in order; a receipt exactly when both timestamps are given, name and address are present, the window total is nonzero and a PDF was made; every failure is a 400 or 500 |
| Receipts.GetReceipt | src/routes/Receipts/GetReceipt.ts:17-112 | the route replies as the specification does |
| Receipts.WindowTotalZero | src/routes/Receipts/GetReceipt.ts:58-77 | the total is never negative, and is zero exactly when no donation in the window had USD expended |
| Receipts.WindowTotalAppend | src/routes/Receipts/GetReceipt.ts:60-69 | one more donation adds its cents exactly when it is in the window |
| Receipts.WindowIsStrictAndCaseSensitive | src/routes/Receipts/GetReceipt.ts:61-66 | another letter case of the address, or a donation exactly at either end, does not count |
| DonationGroups.ParseBy | src/routes/Donations/GetDonationsGroupedBy.ts:33-48 | exactly the six field names are accepted, each as its field |
| DonationGroups.JsKeyOrderMeaning | src/routes/Donations/GetDonationsGroupedBy.ts:61-65 | group keys are listed without loss: array-index keys first in ascending order, then the others in first-appearance order |
| DonationGroups.DedupMeaning | src/routes/Donations/GetDonationsGroupedBy.ts:61 | every key that occurs is listed, once |
| DonationGroups.OrderedKeysMeaning | src/routes/Donations/GetDonationsGroupedBy.ts:61-65 | the listed keys are the keys of the donations, each once |
| DonationGroups.GroupsSum | src/routes/Donations/GetDonationsGroupedBy.ts:61-65 | any sum over all groups equals the same sum over the list |
| DonationGroups.GroupsPartition | src/routes/Donations/GetDonationsGroupedBy.ts:56-65 | one nonempty group per distinct key, holding exactly the donations with that key in list order; every donation is in a group |
| DonationGroups.GroupsInTimestampOrder | src/routes/Donations/GetDonationsGroupedBy.ts:56-61 | each group of the ordered list is in timestamp order |
| DonationGroups.Summarise | src/routes/Donations/GetDonationsGroupedBy.ts:68-103 | the totals loop gives the group's members, its first donator and the five sums |
| DonationGroups.SummariseGroups | src/routes/Donations/GetDonationsGroupedBy.ts:65-106 | one summary per group, in group order |
| DonationGroups.GroupTotalsConserved | src/routes/Donations/GetDonationsGroupedBy.ts:65-106 | each of the five totals summed over the groups equals that total over all donations |
| DonationGroups.ParseSortBy | src/routes/Donations/GetDonationsGroupedBy.ts:108-125 | exactly the five total names are accepted |
| DonationGroups.GroupedReply | src/routes/Donations/GetDonationsGroupedBy.ts:21-152 | success exactly when `by` is allowed, the page is valid and any `sortBy`/`sortDir` is allowed; the refusals in the source's order; `total` is the number of groups and the page is a slice of the ordered entries |
| DonationGroups.GetDonationsGroupedBy | src/routes/Donations/GetDonationsGroupedBy.ts:21-160 | the route replies as the specification does |
| DonationGroups.OrderedMeaning | src/routes/Donations/GetDonationsGroupedBy.ts:135-141 | ordering keeps every group, sorts by the requested total (descending by default) and keeps ties in listing order |
| Js.ToNumberOfNatToString | src/Infura/StandardCharity/ContractFunctions.ts:323 | printing a count and reading it back with `Number()` gives the count |
| Js.NatToStringHasNoDash | src/Infura/StandardCharity/ContractFunctions.ts:315 | a printed count is nonempty and has no '-' |
| Js.SameIgnoringCaseIsEquivalence | src/Infura/StandardCharity/Helpers.ts:255 | comparing lower-cased strings is reflexive, symmetric and transitive |
| Js.SameIgnoringCaseIff | src/Infura/StandardCharity/Helpers.ts:255 | two strings compare equal ignoring case exactly when they have the same length and differ at most in the case of ASCII letters |
| Js.HexAddressCase | src/routes/ExpendedDonations/PendingExpendedDonations.ts:82-84 | "0xAB" and "0xab" compare equal ignoring case, "0xAB" and "0xac" do not |
| Js.FilterMembers | src/routes/Donations/GetAllDonations.ts:27-30 | an element is kept exactly when it is in the list and passes |
| Js.FilterConcat | src/Infura/StandardCharity/Helpers.ts:253-265 | filtering a concatenation filters each part |
| Js.FilterCount | src/routes/Donations/GetAllDonations.ts:27-30 | every occurrence of a passing element is kept and none of the others |
| Js.FilterSorted | src/routes/Donations/GetAllDonations.ts:26-31 | filtering an ordered list keeps it ordered |
| Js.ReverseConcat | src/Infura/StandardCharity/Helpers.ts:276-281 | reversing a concatenation reverses each part and swaps them, so two pushes equal one push of both lists |
| Js.ReverseMultiset | src/redis/instance.ts:87-101 | reversal keeps every element |
| Js.Slice | src/routes/Donations/GetAllDonations.ts:37 | `slice(start, end)` is the elements from `start` up to `end` or the end of the list, and empty when the bounds are crossed |
| Js.SumNonNegative | src/routes/Receipts/GetReceipt.ts:58-70 | a sum of non-negative terms is non-negative, and zero exactly when every term is |
| Js.SortByCorrect | src/routes/Donations/GetAllDonations.ts:21-24 | `orderBy` returns the same elements in key order |
| Js.SortByStable | src/routes/Donations/GetDonationsGroupedBy.ts:135-141 | `orderBy` keeps elements of equal key in their input order |

## Left out

- Network, websockets, timers and `sleep`: ledger answers are oracle functions of the attempt number, and a sleep does nothing.
- Concurrency: operations run one at a time. The check-then-set of the two locks is therefore atomic here. The un-awaited refund submission is not run; `CheckForRefunds.Init` returns the refund it would hand over.
- Exceptions thrown inside the routes and workflows, apart from the cases stated in contracts (a throwing ledger write in the helpers, a throwing wei conversion, a throwing pointer getter): the catch-all 500 replies and the lock release in the refund sweep's catch are not modelled.
- ABI encoding and decoding, signature verification, the CoinGecko price, the float ETH-to-wei conversion, zip extraction, xxhash, S3 upload, temp-file cleanup, luxon date validity and PDF generation: each is an input (an option or a boolean).
- `getPageStartEnd` is not part of this model; a route receives its error or its bounds as an input.
- `sendResponse` in `src/routes/StandardRoute.ts` is not part of this model; a reply keeps the status the route asks for.
- `Number()` on anything but digit strings: fractions, signs, whitespace, hex and exponents are NaN here. `Js.ToNumber` covers only what the modelled inputs need.
- `Number()` ordering of big totals in the grouped listing: the model orders by the exact integer, while JavaScript orders doubles, which may tie or misorder totals above 2^53.
- The Intl currency formatting and `decodeURIComponent` of the receipt route: only the URL of the generated PDF is an input.
- The record normalisations of the helpers (`Number()` of numeric fields) are not modelled. The model assumes that the cached donation fields `timestamp`, `valueExpendedUSD`, `donationNumber` and `numExpenditures` are numbers. Receipts.WindowTotal, Receipts.TotalCentsExpended, DonationGroups.Summarise and ExpenditureAllocation.FindDonation depend on it. Were they strings, `+=` would concatenate (`src/routes/Receipts/GetReceipt.ts:68`, `src/routes/Donations/GetDonationsGroupedBy.ts:86` and `:92`) and `===` against a number would fail (`src/routes/ExpendedDonations/PendingExpendedDonations.ts:84`).
- Js.LowerChar: lower-cases ASCII letters only; `toLowerCase()` on other Unicode letters is not modelled. Addresses are hex, so this does not change any address comparison.
- An array-valued `by` query parameter of the grouped listing is not modelled; `by` is a string.
- Reading the cached lists assumes the missing getters return the list in redis order.
- `createPendingExpendedDonation`'s USD and plates remaining-amount parameters are passed along but never read by the source; they are dropped.
- ExpenditureAllocation.Share: computed exactly with halves rounded up, while the source uses a double division and `Math.round`, which may differ by one for large or unlucky values.
- LedgerReads.Spotlight: `toBN` of a non-decimal string is treated as a failure, and hex values are not accepted.
- Cache.Store.ContractBalance: the balance is a natural number; `new BN` of a cached non-numeric string is not modelled.
- ExpenditureAdmission.NumberIfValid: a JSON number is an integer here; fractional plates or USD are not modelled.
- LedgerHelpers.Helpers.GetDonation: the fetched donation is returned as is, without re-parsing its fields.

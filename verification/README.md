# Aryavartham platform: proofs about its stateful core

A Dafny model of six stateful parts of the platform, and proofs of what they keep over
all inputs and all interleavings of their requests:

- **Refresh tokens** (`RefreshTokens.dfy`): rotation within token families with reuse
  detection, as in section 4.14.2 of RFC 9700.
- **Cart** (`Pricing.dfy`, `Apportionment.dfy`, `Totals.dfy`, `CartItems.dfy`,
  `CartRuns.dfy`): tier and sale prices, coupons, the apportioned taxable base, merged
  additions, build-guide bundles, caps, and requests overlapping on one cart.
- **Batches** (`Batches.dfy`, `BatchRuns.dfy`): three paths that race to create the next
  batch under one advisory lock, and the capacity check that closes a full one.
- **Applicants** (`Applicants.dfy`): the cached head count of a batch under removals.
- **Articles** (`Articles.dfy`, `ArticleMedia.dfy`, `Slugs.dfy`): the moderation workflow,
  capped media slots, and slugs.
- **Store cart** (`StoreCart.dfy`): the request counter of the storefront's cart context.

`Wrappers.dfy` and `Collections.dfy` hold what several parts share.

## How it is built

Each part has the same layers. Functions say what one database statement, or one stretch
of code between two awaits, does to the state. Classes hold that state in fields, and
their methods follow the control flow of the source; their contracts equate the new state
with those functions. Where requests overlap, a state machine takes such steps one at a
time: `Step` is one event, `Run` any sequence of events, and an event that cannot happen
leaves the state alone, so a theorem about all sequences of events is one about all runs.
Request identifiers are arbitrary integers, so there is no bound on the number of clients.

Records such as `log`, `flips`, `removals` or `entries` only write down what has
happened, for the theorems to speak of; no step reads them.

Amounts are integers in paise, times are integers, identifiers are integers or positions.

## What the proofs found

Most of what the code and its comments promise holds as stated. Where it does not, the
model keeps the code's behaviour, a lemma shows the failing case and, where there is one,
an if-and-only-if gives the exact boundary:

- Crossing a coupon's minimum order value can make a larger order cheaper
  (`Pricing.PayableDropsExactly`, `Pricing.PayableDropsAtMinimum`).
- The cap of 100 cart lines can be exceeded by counts that overlap with inserts
  (`CartRuns.RoomIsKeptExactly`, `CartRuns.RoomIsExact`, `CartRuns.OverlapExceedsCap`), and
  an add can be lost to another write of its line (`CartRuns.AddCountsExactly`,
  `CartRuns.OverlapLosesAnAdd`).
- The re-count under the lock does what its comment says: a removal before the lock cannot
  close a batch that is no longer full (`BatchRuns.RecountSeesRemovals`). It does not cover
  a removal between the re-count and the update (`BatchRuns.ClosesFullExactly`,
  `BatchRuns.RemovalBeatsRecount`).
- Creating a batch by hand while one is filling leaves two filling (`Batches.ManualCreate`).
- Bringing a removed applicant back, an applicant created by a first login, and a removal
  that read the batch before a backfill move make the cached count drift
  (`Applicants.DriftIsKeptExactly`); the first also lets an applicant be counted down twice
  (`Applicants.CountsAgainExactly`, `Applicants.ReturnCountsTwice`).
- The writes of a submission and of an author's edit are not guarded by the status. The one
  can pull an article out of PUBLISHED (`Articles.DateIsKeptExactly`,
  `Articles.SubmitCanUnpublish`), the other can change it unreviewed
  (`Articles.ContentIsKeptExactly`, `Articles.LateEditGoesLive`).
- Two overlapping mutations, another writer, or an initial load that settles late can make
  the storefront show an older cart after a newer one (`StoreCart.OrderIsKeptExactly`,
  `StoreCart.MutationCanGoBackExactly`, `StoreCart.LoadCanGoBackExactly`,
  `StoreCart.RefreshCanGoBackExactly`, and a run for each).
- A slug is trimmed before it is cut to 80 characters, so it can end in a dash
  (`Slugs.SlugShape`).

## Model

| member | source | states |
|---|---|---|
| `RefreshTokens.AtMostOneLiveToken` | backend/src/modules/auth/auth.service.ts:237-323 | In every run of logins, refreshes (lookup, signing, transaction), replays, logouts, clean-ups, clock ticks and aborted requests, a token family has at most one unrevoked row, and no row is rotated twice, however many clients present its token |
| `RefreshTokens.FamilyIsOneChain` | backend/src/modules/auth/auth.service.ts:258-315 | In every run a family has one row more than successful rotations, each rotation links a row to the family's next row, every row but the newest is revoked, and all rows have the owner named in their tokens |
| `RefreshTokens.DeadStaysDead` | backend/src/modules/auth/auth.service.ts:289-323 | A family without an unrevoked row never has one again, in any continuation of any run |
| `RefreshTokens.LiveEndsExactly` | backend/src/modules/auth/auth.service.ts:289-342 | In every reachable state a live token stops being live if and only if the step is its own rotation, a revocation of its family, or a clean-up after its expiry |
| `RefreshTokens.ReplayVerdict` | backend/src/modules/auth/auth.service.ts:237-252 | Presenting a revoked token, at any later moment and after any other requests: tolerated up to 10 000 ms after the revocation, reuse after that, unknown once its row is pruned; its revocation time has not moved |
| `RefreshTokens.VerdictByRow` | backend/src/modules/auth/auth.service.ts:253-258 | At the end of any run, presenting a token whose row is on record and not revoked: expired if and only if its expiry has passed, accepted for that row and its family if and only if not |
| `RefreshTokens.UnknownExactly` | backend/src/modules/auth/auth.service.ts:237-240 | A token is unknown if and only if no row on record holds it |
| `RefreshTokens.ExpiredIsRefused` | backend/src/modules/auth/auth.service.ts:253-315 | In every run: a token stored at some moment is never accepted later than the lifetime after it, and unless revoked by then presenting it changes no row and leaves nothing in flight |
| `RefreshTokens.LoginStores` | backend/src/modules/auth/auth.service.ts:202-204 | A login stores a live token of its own family, owned by the user, that expires exactly one lifetime later |
| `RefreshTokens.SigningDecides` | backend/src/modules/auth/auth.service.ts:257-288 | A successor is signed only for an active user, for the same user, row and family, to expire one lifetime after signing; otherwise the request ends. Nothing is stored yet |
| `RefreshTokens.CleanUpIsExact` | backend/src/modules/jobs/scheduler.service.ts:47-52 | The clean-up takes exactly the rows whose expiry has passed off the record |
| `RefreshTokens.ReplayKillsFamily` | backend/src/modules/auth/auth.service.ts:241-249 | A replay found to be reuse leaves the family without a live token for good, whatever runs between the lookup and the revoking update and whatever follows |
| `RefreshTokens.LogoutKillsFamily` | backend/src/modules/auth/auth.service.ts:325-342 | So does a logout with any token of the family on record, revoked or not |
| `RefreshTokens.RevokeKillsFamily` | backend/src/modules/auth/auth.service.ts:318-323 | A revoking update that a request still has to make kills its family for good |
| `RefreshTokens.LostRaceIsHarmless` | backend/src/modules/auth/auth.service.ts:289-309 | Of two refreshes of one row the later commit, however late, changes no row: the winner's token survives |
| `RefreshTokens.RejectionIsHarmless` | backend/src/modules/auth/auth.service.ts:238-255 | A tolerated replay, an expired or an unknown token changes no row and leaves nothing in flight |
| `RefreshTokens.UndisturbedRefresh` | backend/src/modules/auth/auth.service.ts:219-315 | A refresh nothing disturbs revokes the presented row and appends one successor of the same family; the new token is then accepted and the old one is a tolerated replay |
| `RefreshTokens.FallbackLogoutIsNoOp` | backend/src/modules/auth/auth.service.ts:335-340 | In every reachable state the unguarded update of a logout whose token is not on record changes nothing |
| `RefreshTokens.FallbackLogoutWritesExactly` | backend/src/modules/auth/auth.service.ts:335-340 | On any table, that update changes something if and only if an unpruned row holds the token with another revocation time, or none |
| `RefreshTokens.RunKeepsInv` | backend/src/modules/auth/auth.service.ts:219-342 | Rows are only added, or revoked once, or pruned; owner, family, token and revocation time of a row never change |
| `RefreshTokens.AuthService.CheckPresented` | backend/src/modules/auth/auth.service.ts:237-255 | The lookup and its checks give the decision that the theorems speak of, error cases included |
| `RefreshTokens.AuthService.RotateWithinFamily` | backend/src/modules/auth/auth.service.ts:289-304 | The transaction rotates exactly when the row is still unrevoked, and otherwise changes nothing |
| `RefreshTokens.AuthService.RevokeAll` | backend/src/modules/auth/auth.service.ts:318-323 | Leaves no row of the family live; every other row, and every earlier revocation time, stays as it was |
| `RefreshTokens.AuthService.Logout` | backend/src/modules/auth/auth.service.ts:325-342 | Revokes the token's family, or the token's row when it is not on record |
| `RefreshTokens.AuthService.StoreRefreshToken` | backend/src/modules/auth/auth.service.ts:375-385 | From then on the token is accepted up to its expiry, one lifetime away, and expired after it; the verdict on every other token, at any time, is what it was |
| `Apportionment.Apportion` | backend/src/modules/cart/cart.service.ts:850-869 | The array loop over the stable sort gives each line its floor, and one unit more to exactly the lines beaten by fewer others than there are units left |
| `Apportionment.PartsSumToTotal` | backend/src/modules/cart/cart.service.ts:845-869 | The parts sum to the total if and only if the total is zero or both total and weight sum are positive |
| `Apportionment.WithinOneOfQuota` | backend/src/modules/cart/cart.service.ts:854-868 | Every part is strictly within one unit of its exact quota: that quota rounded down or up |
| `Apportionment.PartsAreBounded` | backend/src/modules/cart/cart.service.ts:850-869 | For non-negative weights: no part is negative, a weightless line gets nothing, no part exceeds its weight when the total does not exceed the weight sum |
| `Apportionment.PartsFollowWeights` | backend/src/modules/cart/cart.service.ts:850-869 | A strictly larger weight never gets a smaller part |
| `Apportionment.ServedBeatsUnserved` | backend/src/modules/cart/cart.service.ts:858-867 | Whoever gets an extra unit has a larger remainder than whoever does not, or the same and an earlier position |
| `Apportionment.BumpedAreFirsts` | backend/src/modules/cart/cart.service.ts:859-867 | The lines given a unit are exactly the first ones of the stable order, as many as there are units |
| `Apportionment.StableOrder` | backend/src/modules/cart/cart.service.ts:859-861 | The order lists every line once, by descending remainder, ties by position |
| `Apportionment.LeftoverBound` | backend/src/modules/cart/cart.service.ts:855-856 | What the floors leave over is never negative and, unless zero, less than the number of lines with a remainder |
| `Pricing.ResolveUnitPrice` | backend/src/modules/cart/cart.service.ts:955-964 | The loop's result is the least of the effective price and the prices of all tiers the quantity reaches |
| `Pricing.UnitPriceIsBest` | backend/src/modules/cart/cart.service.ts:946-964 | The unit price is at most each price the buyer qualifies for, and is one of them |
| `Pricing.TierOrderIsIrrelevant` | backend/src/modules/cart/cart.service.ts:955-964 | Listing the tiers in another order does not change the price |
| `Pricing.MoreIsNotDearer` | backend/src/modules/cart/cart.service.ts:955-964 | Buying more never raises the unit price |
| `Pricing.SaleAppliesExactly` | backend/src/modules/cart/cart.service.ts:967-980 | The effective price is below the base price if and only if a lower sale price exists and its window is open, ends included; it is then the sale price |
| `Pricing.SaleIsOneStretch` | backend/src/modules/cart/cart.service.ts:967-980 | So a sale price applies over one unbroken stretch of time |
| `Pricing.QualifiesExactly` | backend/src/modules/cart/cart.service.ts:770-779 | A coupon qualifies if and only if it is active and not used up, the window is open, ends included, the minimum is reached, and a guest may use it if the buyer is one |
| `Pricing.DiscountIsGreatest` | backend/src/modules/cart/cart.service.ts:792-807 | The discount is the greatest amount the coupon allows, or nothing: within the order, and within the fixed value, or within the cap and half a paisa above the exact percentage |
| `Pricing.DiscountIsMonotone` | backend/src/modules/cart/cart.service.ts:792-807 | For every coupon, any percentage, cap and value included, discount and remainder are both non-decreasing in the subtotal |
| `Pricing.PercentRoundsHalfUp` | backend/src/modules/cart/cart.service.ts:797-801 | Up to 100% and below its cap, the discount is the exact percentage rounded half up |
| `Pricing.PayableDropsExactly` | backend/src/modules/cart/cart.service.ts:771-782 | With the coupon attached, the larger of two orders is the cheaper one if and only if the minimum order value lies between them, the coupon qualifies there, and its discount exceeds the difference |
| `Pricing.PayableDropsAtMinimum` | backend/src/modules/cart/cart.service.ts:775 | Crossing the minimum order value can lower the amount to pay |
| `Totals.ComputeTotals` | backend/src/modules/cart/cart.service.ts:608-708 | The totals method computes the totals the theorems below speak of, for every cart, coupon and context |
| `Totals.ComputeLines` | backend/src/modules/cart/cart.service.ts:625-653 | The per-line loop: live price, availability and running subtotal |
| `Totals.LinesShowItems` | backend/src/modules/cart/cart.service.ts:628-652 | Every line of the totals shows its own item, in order, with the stock on hand, and is in stock if and only if that covers the quantity |
| `Totals.SubtotalOf` | backend/src/modules/cart/cart.service.ts:715-727 | The coupon pre-check's own loop sums the live worth of the purchasable lines |
| `Totals.SubtotalsAgree` | backend/src/modules/cart/cart.service.ts:626-638 | The two separately written subtotals are equal for every cart |
| `Totals.CouponIsReported` | backend/src/modules/cart/cart.service.ts:655-672 | A coupon is reported if and only if it is attached, known, the order is not empty and it qualifies; the discount is then its own, else zero |
| `Totals.DiscountIsConserved` | backend/src/modules/cart/cart.service.ts:626-708 | Taxable values sum exactly to subtotal minus discount, each line gives up between nothing and its own subtotal, together they give up the discount, and the grand total is taxable plus tax |
| `Totals.TaxIsQuotedOnSplit` | backend/src/modules/cart/cart.service.ts:674-694 | The tax is what the engine quotes, or zero without a quote, for a split of subtotal minus discount over the lines: every part between nothing and its line's subtotal and within one paisa of its exact share |
| `Totals.TaxFollowsDiscount` | backend/src/modules/cart/cart.service.ts:674-694 | So with a quote that depends on the sum alone, tax and grand total are those of subtotal minus discount |
| `Totals.TaxablesAreShares` | backend/src/modules/cart/cart.service.ts:674-682 | The same for any non-negative line subtotals and any taxable total not above their sum |
| `Totals.StoredPricesAreIgnored` | backend/src/modules/cart/cart.service.ts:604-653 | Carts that differ only in stored unit prices have equal totals and equal serialized lines |
| `Totals.MissingLineShowsStored` | backend/src/modules/cart/cart.service.ts:1097-1102 | Only an item without a computed line would show its stored price |
| `Totals.SerializedPricesAreLive` | backend/src/modules/cart/cart.service.ts:1073-1104 | Every serialized line carries the live price and subtotal of its own item |
| `CartItems.SummingAgrees` | backend/src/modules/cart/cart.service.ts:322-344 | Adding build-guide rows with duplicates summed succeeds if and only if adding them one at a time does, and then leaves the same cart, line for line |
| `CartItems.ComponentsAddOneByOne` | backend/src/modules/cart/cart.service.ts:278-350 | The same for the additions of a components request |
| `CartItems.AddAllQuantity` | backend/src/modules/cart/cart.service.ts:342-407 | Each SKU ends up with its old quantity plus what the additions that went through asked for, and those are all of them if and only if none failed; SKUs not asked for keep their quantity |
| `CartItems.AddSkuPricesLive` | backend/src/modules/cart/cart.service.ts:364-393 | An addition leaves the SKU's line at the live price of its new quantity, and every other line as it was |
| `CartItems.AddSkuSucceedsExactly` | backend/src/modules/cart/cart.service.ts:364-390 | It goes through if and only if the SKU can be bought, the new quantity is at most 1000, and the SKU has a line or the cart fewer than 100 |
| `CartItems.AddSkuIsRefusedFor` | backend/src/modules/cart/cart.service.ts:364-390 | Otherwise the error says why, the SKU before the quantity before the room |
| `CartItems.UpdatePricesLive` | backend/src/modules/cart/cart.service.ts:204-234 | An update goes through if and only if the quantity is from 1 to 1000, the line exists and its SKU can be bought; it leaves that line at that quantity and its live price, and every other line as it was |
| `CartItems.UpdateIsRefusedFor` | backend/src/modules/cart/cart.service.ts:210-228 | Otherwise the error says why, the quantity before the line before the SKU |
| `CartItems.GuideAsksExactly` | backend/src/modules/cart/cart.service.ts:284-339 | A guide adds one of its bundle, or of every SKU what its rows call for, each for one at least; and does so if and only if it is published and has something to add |
| `CartItems.WithoutIsExact` | backend/src/modules/cart/cart.service.ts:253 | What a removal leaves is every other line |
| `CartItems.MergeAgrees` | backend/src/modules/cart/cart.service.ts:325-344 | Merging one more row into distinct additions agrees with appending it |
| `CartItems.AddsFuse` | backend/src/modules/cart/cart.service.ts:359-407 | Adding a SKU twice agrees with adding the summed quantity once |
| `CartItems.AddsCommute` | backend/src/modules/cart/cart.service.ts:359-407 | Adding to a line that is there and adding another SKU can be swapped |
| `CartItems.AddSlides` | backend/src/modules/cart/cart.service.ts:342-344 | An addition to a line that is there can be put off past any additions of other SKUs |
| `CartItems.AddSkuKeepsCart` | backend/src/modules/cart/cart.service.ts:359-407 | An addition keeps quantities within 1 and the cap, one line a SKU, prices those of the stored quantity, and at most 100 lines |
| `CartItems.AddAllKeepsCart` | backend/src/modules/cart/cart.service.ts:342-344 | So does any series of additions, one that stops halfway included |
| `CartItems.CartService.AddSkuToCart` | backend/src/modules/cart/cart.service.ts:359-407 | New lines, error and stop as the additions of the theorems have them |
| `CartItems.CartService.AddItem` | backend/src/modules/cart/cart.service.ts:185-197 | Rejects a bad quantity and a closed cart unchanged, else adds; at most 100 lines |
| `CartItems.CartService.UpdateItem` | backend/src/modules/cart/cart.service.ts:204-240 | Sets quantity and re-prices one line, or changes nothing and says why |
| `CartItems.CartService.RemoveItem` | backend/src/modules/cart/cart.service.ts:243-259 | Removes exactly the named line, or reports a closed cart or a missing item |
| `CartItems.CartService.AddDiyBundle` | backend/src/modules/cart/cart.service.ts:278-350 | Adds the guide's bundle or its summed components, stopping at the first that fails and keeping those before it |
| `CartItems.CartService.AddEach` | backend/src/modules/cart/cart.service.ts:342-344 | The loop over the additions |
| `CartItems.SumComponents` | backend/src/modules/cart/cart.service.ts:325-333 | The summing map holds the summed rows in insertion order |
| `CartItems.SetSum` | backend/src/modules/cart/cart.service.ts:328-331 | One `set` on the map |
| `CartRuns.RunKeepsInv` | backend/src/modules/cart/cart.service.ts:185-259 | In every interleaving of the read and write halves of adds, updates and removals, with the catalogue changing at will: quantities stay within 1 and the cap, a SKU has one line, and each stored price is the price of the stored quantity for what its request read |
| `CartRuns.InitHasInv` | backend/src/modules/cart/cart.service.ts:185-259 | The empty cart starts every run with that invariant, and with room |
| `CartRuns.RoomIsKeptExactly` | backend/src/modules/cart/cart.service.ts:385-394 | Room is lines plus distinct SKUs about to be inserted, at most 100. A step takes it away if and only if it is a count that passes at that limit for a SKU neither in the cart nor about to be inserted |
| `CartRuns.CapHolds` | backend/src/modules/cart/cart.service.ts:385-394 | A run in which no count does so never takes the cart beyond 100 lines |
| `CartRuns.RoomIsExact` | backend/src/modules/cart/cart.service.ts:385-394 | Where there is room, the inserts that have passed their count cannot exceed the cap in any order; where there is none, some order of them does |
| `CartRuns.CapHoldsWithoutOverlap` | backend/src/modules/cart/cart.service.ts:385-394 | In particular the cap holds if no request counts while another stands between its count and its insert |
| `CartRuns.OverlapExceedsCap` | backend/src/modules/cart/cart.service.ts:385-394 | With such an overlap two requests take a cart of 99 lines to 101 |
| `CartRuns.AddCountsExactly` | backend/src/modules/cart/cart.service.ts:366-394 | In any run between the read of an add and its write, whoever else acts: the write raises the SKU by the quantity asked for if and only if the SKU's line is then the one read, at the quantity read, or still absent if none was read |
| `CartRuns.AddCountsUndisturbed` | backend/src/modules/cart/cart.service.ts:366-394 | So an add counts in every run in which nothing else writes to its SKU meanwhile |
| `CartRuns.WriteIsPriced` | backend/src/modules/cart/cart.service.ts:228-234 | A write changes at most one line, that of its SKU, and leaves it at the price of its quantity for the SKU and time that its request read |
| `CartRuns.AddStoresReadPrice` | backend/src/modules/cart/cart.service.ts:364-393 | In any run between the read of an add and a write of it that goes through: the line is left at the price that catalogue and clock had at the read, for the quantity read plus the one asked for |
| `CartRuns.UpdateStoresReadPrice` | backend/src/modules/cart/cart.service.ts:228-234 | The same for an update, at the quantity asked for |
| `CartRuns.LineOfStays` | backend/src/modules/cart/cart.service.ts:185-259 | In every run a line, stored price included, changes only by a step that writes it |
| `CartRuns.OverlapLosesAnAdd` | backend/src/modules/cart/cart.service.ts:366-382 | Two overlapping adds of one unit to one line, from any such cart, leave it one higher instead of two |
| `CartRuns.AddAlone` | backend/src/modules/cart/cart.service.ts:359-407 | An add nothing disturbs has the effect of the sequential addition |
| `CartRuns.UpdateAlone` | backend/src/modules/cart/cart.service.ts:204-234 | An update nothing disturbs has the effect of the sequential update |
| `BatchRuns.BatchesStayInOrder` | backend/src/modules/batch/batch.service.ts:163-257 | In every run of racing sign-ups, first logins, capacity checks and administrators, batch numbers are 1, 2, 3, ..., at most one batch is filling and it has the highest number; a batch that stopped filling never fills again |
| `BatchRuns.BatchesCloseOnce` | backend/src/modules/batch/batch.service.ts:171-257 | The capacity check closes a batch at most once, with a locked count of at least the capacity it read; only closed batches are notified, each once; once seen to, the next number exists exactly once |
| `BatchRuns.LockIsExclusive` | backend/src/modules/batch/batch.service.ts:172 | No two requests are inside a transaction holding the lock |
| `BatchRuns.RunKeepsInv` | backend/src/modules/batch/batch.service.ts:138-295 | The invariant behind these holds after any events from any state in which it holds, and batches change only by leaving FILLING, moving on or being created |
| `BatchRuns.LoginAlone` | backend/src/modules/auth/auth.service.ts:445-464 | A first login nothing disturbs ends with the lock free and the table of the service method |
| `BatchRuns.SignUpAlone` | backend/src/modules/applicant/applicant.service.ts:124-178 | So does a sign-up; while automatic batches are off it opens none |
| `BatchRuns.CheckAlone` | backend/src/modules/batch/batch.service.ts:138-263 | A capacity check of a full batch that nothing disturbs ends with the lock free, that last batch closed with the head count recorded, its applicants notified, and the next one open |
| `BatchRuns.CheckOfRoomAlone` | backend/src/modules/batch/batch.service.ts:145-161 | With a free seat, nothing filling, or automatic batches off, it ends at once and leaves everything alone |
| `BatchRuns.FullExactly` | backend/src/modules/batch/batch.service.ts:147-161 | A batch is full if and only if it fills and its head count is at least its capacity |
| `BatchRuns.MoveAlone` | backend/src/modules/batch/batch.service.ts:265-295 | An administrator's move that nothing disturbs takes the batch one stage on, or changes nothing |
| `BatchRuns.OtherStepsTakeEffect` | backend/src/modules/batch/batch.service.ts:49-64 | A request that dies changes no table and lets go of its lock; forced statuses and new capacities take effect on the one batch |
| `BatchRuns.RecountSeesRemovals` | backend/src/modules/batch/batch.service.ts:155-180 | A removal between the first count and the lock is never missed: with the lock held the check goes on if and only if the last head count by then is at least the capacity it read, and otherwise ends without closing anything |
| `BatchRuns.ClosesFullExactly` | backend/src/modules/batch/batch.service.ts:171-189 | In any run between the re-count and the update: the batch closes with at least the capacity that was read if and only if the last head count set meanwhile, or the one counted if there was none, is at least that |
| `BatchRuns.RemovalBeatsRecount` | backend/src/modules/batch/batch.service.ts:171-189 | From every state with a full batch there is a run in which a removal between the two closes it short |
| `Batches.BatchService.GetOrCreateFillingBatch` | backend/src/modules/auth/auth.service.ts:445-464 | Returns a filling batch, creating the next number only when there is none |
| `Batches.BatchService.CreateUnderLock` | backend/src/modules/auth/auth.service.ts:451-463 | Re-check, then create |
| `Batches.OpeningIsExact` | backend/src/modules/batch/batch.service.ts:247-256 | With the table in order: a batch is opened if and only if none is filling, behind the others, with the next number and exactly 100 seats; closing the last one changes its status alone |
| `Batches.BatchService.BatchForSignUp` | backend/src/modules/applicant/applicant.service.ts:124-178 | The same for a sign-up; refuses exactly when nothing is filling and automatic batches are off |
| `Batches.BatchService.FlipUnderLock` | backend/src/modules/batch/batch.service.ts:171-189 | Closes the batch if and only if it is still full and still filling |
| `Batches.BatchService.CreateSuccessorUnderLock` | backend/src/modules/batch/batch.service.ts:216-257 | Creates the next number unless a later batch exists |
| `Batches.BatchService.CheckAndCreateBatch` | backend/src/modules/batch/batch.service.ts:138-263 | Closes a full batch and opens the next, or changes nothing |
| `Batches.BatchService.TransitionStatus` | backend/src/modules/batch/batch.service.ts:265-295 | Moves a batch exactly along the allowed transitions |
| `Batches.TransitionsStepForward` | backend/src/modules/batch/batch.service.ts:269-283 | The allowed transitions are exactly the single steps forward along the seven stages |
| `Batches.ManualCreate` | backend/src/modules/batch/batch.service.ts:27-46 | Creating a batch by hand keeps the table in order if and only if no batch is filling |
| `Batches.LastNumberIsLength` | backend/src/modules/batch/batch.service.ts:33-36 | With consecutive numbers, one above the highest is one above the number of batches |
| `Applicants.RemovalsCountOnce` | backend/src/modules/applicant/applicant.service.ts:785-839 | In every interleaving of sign-ups, removals and status changes into REMOVED, every batch keeps its difference between cached count and remaining applicants, and each applicant is counted down, and backfilled for, at most once |
| `Applicants.DriftIsKeptExactly` | backend/src/modules/applicant/applicant.service.ts:948-1001 | Over all steps, backfill moves, other status changes and logins included: a step keeps every difference if and only if it is not a login that creates an applicant, a removal that counts down a batch since left, or a status change bringing a removed applicant back |
| `Applicants.CountsStayInLine` | backend/src/modules/applicant/applicant.service.ts:948-1001 | So every run without such a step keeps every difference, from any start |
| `Applicants.CountsAgainExactly` | backend/src/modules/applicant/applicant.service.ts:800-818 | A step counts an applicant down a second time if and only if it commits a removal, read with a batch, of one counted down before whose row is not REMOVED now |
| `Applicants.BroughtBack` | backend/src/modules/applicant/applicant.service.ts:992-1001 | And whoever is REMOVED and later is not was brought back by a status change in that run |
| `Applicants.CountedOnce` | backend/src/modules/applicant/applicant.service.ts:791-839 | In every run without one, logins, moves and stale removals included, nobody is counted down, or backfilled for, twice |
| `Applicants.PlainIsClean` | backend/src/modules/applicant/applicant.service.ts:969-1001 | Runs of sign-ups and removals alone never contain such a step |
| `Applicants.ReturnCountsTwice` | backend/src/modules/applicant/applicant.service.ts:992-1001 | A removed applicant who is brought back is counted down and backfilled for again |
| `Applicants.RemovalAlone` | backend/src/modules/applicant/applicant.service.ts:778-839 | A removal nothing disturbs has the effect of the service method |
| `Applicants.ApplicantService.Apply` | backend/src/modules/applicant/applicant.service.ts:183-214 | A sign-up adds the applicant and one to the count; no difference changes |
| `Applicants.ApplicantService.CommitRemoval` | backend/src/modules/applicant/applicant.service.ts:791-831 | The transaction counts down if and only if its guarded update hit the row |
| `Applicants.ApplicantService.RemoveApplicant` | backend/src/modules/applicant/applicant.service.ts:778-839 | Removes, counts down and asks for a backfill only for a closed batch and a new removal; no difference changes |
| `Applicants.ApplicantService.UpdateApplicantStatus` | backend/src/modules/applicant/applicant.service.ts:948-1013 | Sets the status, or removes as above, backfill request included; refuses the statuses that may not be set |
| `Applicants.SettableExactly` | backend/src/modules/applicant/applicant.service.ts:955-960 | An administrator may set exactly seven of the statuses |
| `Applicants.DriftOf` | backend/src/modules/jobs/batch.processor.ts:127-156 | By how much each step, a backfill move with its two counter updates included, changes each batch's difference |
| `Applicants.ApplyTakesEffect` | backend/src/modules/applicant/applicant.service.ts:183-214 | In the runs a sign-up adds one pending applicant to its batch and one to that count |
| `Applicants.MoveTakesEffect` | backend/src/modules/jobs/batch.processor.ts:127-156 | A move takes an applicant who is still in the batch, and not removed, to the other one, and one from this count to that; otherwise it changes nothing |
| `Applicants.OtherStepsTakeEffect` | backend/src/modules/auth/auth.service.ts:182-194 | A login adds a pending applicant and leaves the counts alone; batches open empty; a request that dies writes nothing |
| `Articles.WorkflowIsSound` | backend/src/modules/articles/articles.service.ts:783-1374 | In every interleaving of the handlers' reads and writes: APPROVED is never reached; a published article has a date, not in the future, and a reviewer; a rejected one a reason and a reviewer; a reason stands only on rejected or archived articles; decisions never outnumber entries into the queue |
| `Articles.StatusIsEnteredExactly` | backend/src/modules/articles/articles.service.ts:617-1374 | A step takes an article into PUBLISHED if and only if it commits an approval on a submitted article or a restore on an unpublished one; and exactly so for REJECTED, SUBMITTED, ARCHIVED, DRAFT and deletion |
| `Articles.DecisionsTakeEffect` | backend/src/modules/articles/articles.service.ts:1165-1258 | On a submitted article an approval publishes now without a reason, a rejection keeps the date and sets its reason; both name their administrator and keep author and content. On any other article neither does anything |
| `Articles.WritesTakeEffect` | backend/src/modules/articles/articles.service.ts:769-1373 | What submission, restore, edits and unpublishing do to each field, whatever state the article is in by then |
| `Articles.RequestsDecide` | backend/src/modules/articles/articles.service.ts:715-1364 | From each status: which requests are refused and with which error, which have nothing to do, and what the others go on to write; a restore keeps the date it read |
| `Articles.LifeOfAnArticle` | backend/src/modules/articles/articles.service.ts:617-1374 | Undisturbed handlers take an article from draft through the queue to published or rejected, back into the queue, to the archive and back to published on a new date |
| `Articles.FirstDecisionStands` | backend/src/modules/articles/articles.service.ts:1163-1265 | Of the approvals and rejections pending on a submitted article the first to commit wins; until it re-enters the queue every later one changes nothing |
| `Articles.DateIsKeptExactly` | backend/src/modules/articles/articles.service.ts:783-826 | A step keeps `published if and only if dated` exactly when it is not the unguarded write of a submission to an article published meanwhile |
| `Articles.UndisturbedHandlers` | backend/src/modules/articles/articles.service.ts:715-1374 | Handlers that do not overlap keep it, and none but an administrator's update changes a published article |
| `Articles.ContentIsKeptExactly` | backend/src/modules/articles/articles.service.ts:715-774 | In the queue, published or archived, an article keeps its content in every step but the write of an edit that makes a difference: an administrator's, or one its author decided on before |
| `Articles.ReviewedIsPublished` | backend/src/modules/articles/articles.service.ts:702-774 | What enters the queue with no edit in flight keeps its content, published or not, for as long as it stays out of its author's hands and no administrator edits it |
| `Articles.LateEditGoesLive` | backend/src/modules/articles/articles.service.ts:743-773 | The run in which an author's edit, decided on while the article was a draft, changes it after publication |
| `Articles.SubmitCanUnpublish` | backend/src/modules/articles/articles.service.ts:821-825 | The run in which a submission pulls a published article back into the queue |
| `Articles.ArticlesService.UpdateMine` | backend/src/modules/articles/articles.service.ts:715-774 | Error and new row of an author's edit; other articles unchanged |
| `Articles.ArticlesService.SubmitMine` | backend/src/modules/articles/articles.service.ts:783-826 | Inline edits first; if they fail nothing is submitted, else error and new row of the submission on the edited row; other articles unchanged |
| `Articles.ArticlesService.Approve` | backend/src/modules/articles/articles.service.ts:1145-1182 | The same for an approval |
| `Articles.ArticlesService.Reject` | backend/src/modules/articles/articles.service.ts:1228-1265 | The same for a rejection; a second rejection is refused |
| `Articles.ArticlesService.CompareAndSwap` | backend/src/modules/articles/articles.service.ts:1165-1173 | The guarded update hits exactly a submitted article |
| `Articles.ArticlesService.AdminUpdate` | backend/src/modules/articles/articles.service.ts:1296-1347 | Edits, and on request archives and clears the date |
| `Articles.ArticlesService.Restore` | backend/src/modules/articles/articles.service.ts:1356-1374 | Publishes, keeping an earlier date |
| `ArticleMedia.InitHasInv` | backend/src/modules/articles/articles.service.ts:858-890 | The empty table starts every run with the invariant that caps hold and only a lock's holder stands between count and insert |
| `ArticleMedia.CapsHold` | backend/src/modules/articles/articles.service.ts:858-1044 | In every interleaving of presigns (lock, count, insert, commit or roll back), confirmations, deletions, oversize purges and failed signings from there, the pending and confirmed rows of a type on an article never exceed its cap |
| `ArticleMedia.FailedSignFreesItsSlot` | backend/src/modules/articles/articles.service.ts:901-915 | A signing that fails gives back exactly the slot its request reserved |
| `ArticleMedia.PresignAlone` | backend/src/modules/articles/articles.service.ts:858-924 | A presign nothing disturbs has the effect of the service method |
| `ArticleMedia.ArticleMediaService.PresignMedia` | backend/src/modules/articles/articles.service.ts:841-924 | For the article's own author, in an editable state, with valid input: reserves a slot behind the existing ones if and only if one is free and the URL can be signed; otherwise changes nothing and says why; the caps hold |
| `ArticleMedia.ArticleMediaService.AssertOwnEditableArticle` | backend/src/modules/articles/articles.service.ts:1649-1672 | Tells a missing or foreign article from one that may not be edited |
| `ArticleMedia.GateOpensExactly` | backend/src/modules/articles/articles.service.ts:1630-1672 | It lets through exactly the article's author, unless the article is approved, published or archived |
| `ArticleMedia.UploadsAreChecked` | backend/src/modules/articles/articles.service.ts:960-1013 | An upload is confirmed if and only if it is there with no known size above 15 or 200 MiB, or, outside production, missing with a named size within it; too large and unverifiable uploads are told apart |
| `ArticleMedia.ConfirmationIsExact` | backend/src/modules/articles/articles.service.ts:1015-1022 | A confirmation sets the status and the details given, and nothing else |
| `ArticleMedia.ConfirmAlone` | backend/src/modules/articles/articles.service.ts:942-1022 | A confirmation that nothing disturbs sets status and details; an oversize upload loses its row unless it was confirmed before |
| `ArticleMedia.DeletionsAreExact` | backend/src/modules/articles/articles.service.ts:1034-1041 | Deletions take out exactly the rows named |
| `ArticleMedia.ArticleMediaService.ConfirmMedia` | backend/src/modules/articles/articles.service.ts:933-1023 | Behind the same gate: confirms if the object is there and not too large (outside production the named size stands in for a missing object), purges an oversize upload, only sets details on a confirmed row, and otherwise changes nothing and says why |
| `ArticleMedia.ArticleMediaService.DeleteMedia` | backend/src/modules/articles/articles.service.ts:1026-1044 | Behind the same gate, deletes exactly the named row of the article |
| `Slugs.SlugSaysTitle` | backend/src/modules/articles/articles.service.ts:139-148 | The slug is the words of the title joined by single dashes and cut to 80 characters, or "article" for a title without words |
| `Slugs.MarksVanish` | backend/src/modules/articles/articles.service.ts:143 | A combining mark vanishes without splitting its word |
| `Slugs.AlphabetIsExact` | backend/src/modules/articles/articles.service.ts:143-144 | Words are made of a to z and 0 to 9; the marks that vanish are U+0300 to U+036F |
| `Slugs.SlugShape` | backend/src/modules/articles/articles.service.ts:139-148 | A slug is 1 to 80 word characters and single dashes, not starting with one; it ends in a dash if and only if the cut falls right behind one |
| `Slugs.SlugIsStableExactly` | backend/src/modules/articles/articles.service.ts:139-148 | Slugging a slug again changes it if and only if it ends in a dash |
| `Slugs.InsertWithUniqueSlug` | backend/src/modules/articles/articles.service.ts:169-198 | Inserts the first candidate free at its attempt; fails if and only if all ten are taken |
| `Slugs.CandidateSaysAttempt` | backend/src/modules/articles/articles.service.ts:174-180 | The first candidate is the base, and every other the base, a dash and the decimal number of its attempt |
| `Slugs.CandidatesDiffer` | backend/src/modules/articles/articles.service.ts:174-180 | No two candidates are the same |
| `StoreCart.ShownVersionsNeverGoBack` | frontend/src/lib/storeCart.tsx:160-224 | From a settled initial load on, with one mutation at a time and no other writer, the cart versions shown never go back, none is newer than the server, and the cart on screen is the last one shown or nothing |
| `StoreCart.OrderIsKeptExactly` | frontend/src/lib/storeCart.tsx:132-224 | With refreshes, mutations, other writers and the initial load in flight: a step keeps the versions shown in order if and only if it is not a mutation's or the initial load's answer with something newer last shown, nor a refresh's answer that the initial load has overtaken |
| `StoreCart.MutationCanGoBackExactly` | frontend/src/lib/storeCart.tsx:195-224 | While the server stays as it is, a mutation's answer can still be shown after something newer if and only if the server has moved on since it was given |
| `StoreCart.LoadCanGoBackExactly` | frontend/src/lib/storeCart.tsx:132-154 | The same for the initial load's answer |
| `StoreCart.RefreshCanGoBackExactly` | frontend/src/lib/storeCart.tsx:160-190 | A refresh's answer under the latest token can if and only if the initial load has shown, holds, or may yet get a newer one |
| `StoreCart.ShownExactlyWhenQuiet` | frontend/src/lib/storeCart.tsx:163-187 | A refresh's answer is shown if no refresh or mutation has started and no mutation has ended since its claim, and changes nothing otherwise |
| `StoreCart.MutationsAreShown` | frontend/src/lib/storeCart.tsx:204-221 | After a mutation's answer the cart on screen is that answer; after a failed mutation it is what it was; either ends the mutation |
| `StoreCart.CartChangesExactly` | frontend/src/lib/storeCart.tsx:132-282 | Which steps put which version on screen, which take the cart away (cleared, gone under the latest token, claimed without an identity), and that no other step changes it |
| `StoreCart.LastShownStays` | frontend/src/lib/storeCart.tsx:132-282 | Once something has been shown, the last version shown is on screen in every run in which nothing takes the cart away |
| `StoreCart.IdentityChangesExactly` | frontend/src/lib/storeCart.tsx:131-240 | The guest token is minted only in a mutation of a visitor without a session and lost only with the cart; a customer's session is never touched |
| `StoreCart.RequestsEnd` | frontend/src/lib/storeCart.tsx:132-190 | A refresh is in flight only for a visitor with an identity, under the next token, and until any answer; the initial load is over once shown or failed |
| `StoreCart.CounterTellsQuiet` | frontend/src/lib/storeCart.tsx:105-113 | The counter never falls, and stands still exactly while none of these happens |
| `StoreCart.TwoMutationsCanGoBack` | frontend/src/lib/storeCart.tsx:195-224 | Two mutations at once can show an older version after a newer one |
| `StoreCart.OtherWriterCanGoBack` | frontend/src/lib/storeCart.tsx:204-218 | So can one mutation when someone else writes |
| `StoreCart.HydrateCanGoBack` | frontend/src/lib/storeCart.tsx:132-154 | So can the initial load, which claims no token |
| `StoreCart.OvertakenRefreshCanGoBack` | frontend/src/lib/storeCart.tsx:132-190 | So can a refresh that the initial load overtakes, with one mutation and no other writer |
| `StoreCart.StoreCartProvider.StartRefresh` | frontend/src/lib/storeCart.tsx:160-171 | Claims a token; without an identity clears the cart instead |
| `StoreCart.StoreCartProvider.FinishRefresh` | frontend/src/lib/storeCart.tsx:173-189 | Commits response, absence or error only under the latest token |
| `StoreCart.StoreCartProvider.StartMutation` | frontend/src/lib/storeCart.tsx:196-203 | Marks the mutation and clears the error; no refresh claimed before, whatever its answer, can change anything any more |
| `StoreCart.StoreCartProvider.FinishMutation` | frontend/src/lib/storeCart.tsx:204-221 | Stores the result or the error; no refresh claimed while it ran can change anything any more |
| `StoreCart.StoreCartProvider.OpenCart` | frontend/src/lib/storeCart.tsx:272-282 | Opens; refreshes unless a mutation is in flight |

## Left out

Where a contract assumes or says less than the platform does:

- RefreshTokens.RevokeKillsFamily: takes the revoking UPDATE and the rotation transaction
  as atomic. Under Postgres' read-committed isolation one UPDATE over a family may miss a
  row that a concurrent rotation has inserted but not yet committed; that is not modelled.
- RefreshTokens.AtMostOneLiveToken: the token hash is injective and random identifiers are
  fresh, so a token that has been signed but not yet returned cannot be presented. A failed
  signature check ends a request before it reads anything, and is not a step. The check
  that the user is still active is an arbitrary boolean.
- RefreshTokens.ReplayVerdict: pruned rows
  (backend/src/modules/jobs/scheduler.service.ts:47-52) are flagged instead of taken out of
  the table, so that history can be stated; a flagged row is never found, revoked or rotated.
- Apportionment.Apportion: works on exact integers where the source divides floats. While
  weight times total stays below 2^52 a quotient is off by less than half of one part in the
  weight sum, so floors and the order of unequal remainders agree, and only lines with equal
  remainders may come in another order. Between 2^52 and 2^53 unequal remainders can change
  places too.
- Apportionment.ServedBeatsUnserved: the only property of the apportionment that depends on
  that order.
- Totals.ComputeTotals: the tax engine is an arbitrary non-negative quote that may also
  fail; stock on hand, the clock and the coupon table are inputs.
- CartRuns.RunKeepsInv: the two reads of an addition (catalogue, row) are one step; its
  count and its insert are two more. The closed-cart check is in the sequential methods only.
- BatchRuns.BatchesStayInOrder: manual creation of a batch is not one of the steps, as it
  breaks the order (`Batches.ManualCreate` says exactly when). The status writes of team
  formation and matching (backend/src/modules/team/team.service.ts:122,
  backend/src/modules/matching/matching.service.ts:205) are one unguarded step that sets any
  status but FILLING; capacities and head counts may change at any moment.
- Applicants.RemovalsCountOnce: of the backfill worker only the move of one applicant is
  modelled, under `Applicants.DriftIsKeptExactly`; team member counts are not.
- Articles.ArticlesService.AdminUpdate: featuring an article and keeping reserved tags
  through an edit of the tags are not modelled; an edit replaces the fields it names.
- ArticleMedia.CapsHold: in the interleavings any request may pass the ownership and
  editability gates, which only adds runs. Rows are taken out by deletion or failure only:
  no clean-up of stale pending rows is among the modelled files.
- ArticleMedia.ArticleMediaService.PresignMedia: whether file name and MIME type are valid
  is an input, and the S3 key is left out.
- Slugs.SlugShape: speaks of a title already lowercased and NFKD-normalized.
- Slugs.InsertWithUniqueSlug: database errors other than a slug conflict are not modelled.
- StoreCart.ShownVersionsNeverGoBack: a cart on the server is known by its version alone;
  `StoreCart.OrderIsKeptExactly` is about runs with the initial load still in flight.

Not modelled at all:

- Coupon redemption and its per-customer cap, checkout, guest-cart merging and inventory:
  their services are not part of this model.
- Hard deletion of applicants and removal of non-responders: each decides how far to count
  down from a read before its transaction, so neither keeps the counter when it overlaps a
  removal.
- Search and ranking SQL, analytics, notifications, e-mail, DTO validation, guards,
  throttling and rendering: plumbing that would add only easy members.

# Verified model of an ISP billing system

The repository bills internet subscriptions: it issues prorated and recurring invoices, changes plans
mid-cycle, takes payments from gateways and wallets, cuts off and restores service on routers, reminds
customers, prints invoices as PDF and backs tenants up. This project models the parts in which money,
plans, service status and time move together, plus two self-contained algorithms, and proves what they
promise over every input, every run or every order of execution.

Code that changes things step by step is modelled by classes whose methods write the fields in the order
of the original, each proved equal to a function of the old state; lemmas then prove the properties of
those functions. Pure code is modelled by functions.

| file | what it covers |
|---|---|
| `RateLimiter.dfy` | sliding-window limiter: in-place compaction refines counting over the whole history |
| `Calendar.dfy`, `Proration.dfy` | anchors, due dates, the monthly clock; rounding, proration, plan-change quotes |
| `Invoices.dfy`, `InvoiceLabels.dfy` | invoice amounts from issue through late fees, discounts and payments; the label by which a built-in discount is recognised |
| `BillingEngine.dfy`, `BillingClock.dfy` | routine billing, the due pass, and the clock over whole runs |
| `PlanChange.dfy` | the deferred-upgrade protocol, with crashes between its writes |
| `PostPayment.dfy` | the pass after a payment, for every iteration order of its maps |
| `Settlement.dfy`, `GatewayIntents.dfy` | wallet settlement; webhook, poll, checkout and cancellation of intents |
| `IsolirWorker.dfy`, `Dunning.dfy` | suspension against router profile under failures; claim-once reminders |
| `TenantBackup.dfy` | backup and restore round trip with its frame |
| `PdfText.dfy`, `PdfLayout.dfy` | string escaping and line breaking |
| `PdfDict.dfy`, `PdfDocument.dfy` | dictionaries and the file that is written, with a parser of dictionaries |
| `PdfReader.dfy`, `PdfPage.dfy` | a reader of such files after ISO 32000-1, and what it finds on the page |
| `Options.dfy` | the option type |

## Modelling decisions

- Amounts are integers, percentages exact fractions, dates proleptic Gregorian, instants integers. All
  wall clocks of one tenant share one location; billing instants are read on its wall clock, as in the zones
  without clock changes that the settings page offers (`BillingClock.ElapsedDaysIff` says what a change does),
  while reminders are modelled in any zone.
- Foreign effects (router, gateway, notifications) and store writes that may fail appear as boolean
  answers; every combination of answers is covered unless a contract says otherwise.
- Loops over Go maps are modelled by choosing any remaining element, so their contracts hold for every
  iteration order.
- Concurrent processes are not interleaved inside a step; crash points between separate writes are.

## Where the code differs from what one would expect

- The limiter is described as fixed-window; the code keeps a sliding window, which is what is modelled.
  Its clean-up is meant to keep the map small but no stored list is ever empty, so it evicts nothing
  (`RateLimiter.AuthRateLimiter.Sweep`). It counts like the whole history exactly while no admission in
  the window has met a call a whole window later, which only a clock that runs backwards can bring about
  (`RateLimiter.CountsLikeHistoryIff`, `RateLimiter.BackwardClockUndercounts`).
- Before tax no chain of plan changes is cheaper than the direct one; with tax, rounding can make it so,
  by a bounded amount and under an exact condition on the rests of the tax
  (`Proration.ChainTotalWithinRounding`, `Proration.DirectCostsMoreIff`, `Proration.OneStopIsCheaperIff`).
- A free plan has the paying plan's clock from activation on exactly when its anchor lies ahead then; a
  backdated start puts it one cycle ahead until both are caught up
  (`BillingClock.ActivationClockIsTheSameIff`, `BillingClock.FreePlanCaughtUp`).
- Monthly billing keeps its day exactly when the day is at most the 28th (`Calendar.MonthlyDayIsStableIff`).
- The clock moves on a paid pass exactly when the earlier invoices could be counted and one of them is not
  in the trash; otherwise the next pass bills again (`BillingClock.ClockMovesIffHistory`).
- A discount built in at issue under a fixed-amount rule is not recognised, so the invoice can be discounted
  again (`InvoiceLabels.BuiltInDiscountRecognisedIff`, `InvoiceLabels.DiscountedAgainIff`).
- A discount that brings an upgrade invoice down to what is already paid pays it with no apply step behind
  it (`PlanChange.DiscountKeepsPromptIff`), and the next accepted request then drops the upgrade.
- A paid upgrade that is not applied yet is lost to the next accepted change request, for ever
  (`PlanChange.PaidUpgradeSurvivesIff`, `PlanChange.ForgottenForEver`).
- The ignored failures of reading and clearing a marker matter: an unread marker lets a request through
  while an upgrade is unpaid, and an immediate change over a marker that stays is undone by the next apply
  (`PlanChange.UnpaidUpgradeBlocks`, `PlanChange.RequestKeepsInvIff`, `PlanChange.NewChoiceSurvivesIff`); a
  lost or overwritten marker leaves a second upgrade open (`PlanChange.RequestKeepsOneOpenIff`).
- A booked intent can be booked again exactly when all its closing status writes fail
  (`GatewayIntents.ClosedIff`). `UpdatePaymentIntentStatus` never changes a paid intent.
- A resume can strand a subscription: suspended in billing, restored on the router, invisible to every
  later cycle; this happens exactly when the status write alone fails
  (`IsolirWorker.ResumeStrandsIff`, `IsolirWorker.StrandedForEver`). Repair frees a service that is
  still overdue exactly when the overdue list could not be read (`IsolirWorker.RepairFreesOverdueIff`).
- A checkout leaves other pending intents behind when its cancel write fails, which is ignored
  (`GatewayIntents.CheckoutLeavesOnePending`).
- Reminders count 24-hour days, so clocks set forward in between cost a day
  (`Dunning.DayIsDateDifferenceIff`).
- A checkout reuses a pending intent that charges the same; when remainder and fee have both moved, paying
  it does not settle the remainder (`GatewayIntents.ReusedCheckoutSettlesIff`).
- Dunning offsets are accepted from -30 to 30, but the list query reaches only -7 to 3, counted on the
  database's date, while the day is counted on the tenant's (`Dunning.OffsetCanFireIff`).
- The cross-reference table is readable exactly while the last object starts before byte 10^10
  (`PdfPage.InvoiceReadsBack`).

## Model

| member | source | states |
|---|---|---|
| RateLimiter.AuthRateLimiter.constructor | internal/httpx/ratelimit.go:86-90 | a new limiter stores nothing and has an empty history |
| RateLimiter.AuthRateLimiter.Compact | internal/httpx/ratelimit.go:96-102 | the in-place compaction leaves exactly the instants after the cutoff at the front of the array, in order |
| RateLimiter.AuthRateLimiter.Append | internal/httpx/ratelimit.go:112 | appending yields the old instants plus the new one, in the same array or a fresh one |
| RateLimiter.AuthRateLimiter.Decide | internal/httpx/ratelimit.go:96-112 | compaction, quota test and append on one slice: verdict and remaining instants as functions of the old ones |
| RateLimiter.AuthRateLimiter.DropEmpty | internal/httpx/ratelimit.go:113-120 | the clean-up loop deletes exactly the keys whose list is empty |
| RateLimiter.AuthRateLimiter.Record | internal/httpx/ratelimit.go:92-112 | verdict and new stored list of one key from the stored instants; every other key keeps its list although arrays are reused |
| RateLimiter.AuthRateLimiter.Allow | internal/httpx/ratelimit.go:92-122 | for any clock readings, a call is admitted exactly when fewer than `limit` instants of its key are still counted: admitted, in the window, and in the window of every later call of the key; this is the verdict of the whole history whenever no admission in the window was discarded, in particular while the clock never ran backwards |
| RateLimiter.CountsLikeHistoryIff | internal/httpx/ratelimit.go:96-112 | the limiter counts all admissions of the whole history that lie in the window if and only if none of them has met a call of its key a whole window later; it never counts more |
| RateLimiter.SteadyRunCountsTheHistory | internal/httpx/ratelimit.go:92-122 | while the readings of each key do not decrease, every decision of a run is the one of the whole history |
| RateLimiter.AuthRateLimiter.Sweep | internal/httpx/ratelimit.go:113-120 | the clean-up changes nothing, because no stored list is empty |
| RateLimiter.Advance | internal/httpx/ratelimit.go:92-112 | deciding from the stored list is deciding from what the history leaves to count, and the new list again summarises the new history |
| RateLimiter.QuotaInEveryWindow | internal/httpx/ratelimit.go:81-112 | no half-open interval of one window, wherever it is placed, holds more than the quota of admitted calls |
| RateLimiter.RetryAfterIsTight | internal/httpx/ratelimit.go:103-110 | after a rejection, with no admission in between, a later call is admitted exactly once the oldest counted one has left the window; waiting Retry-After seconds suffices, the value lies in 2..window+1 and overshoots by at most one second when the wait is at least one |
| RateLimiter.KeysDoNotInterfere | internal/httpx/ratelimit.go:92-112 | removing the calls of all other keys changes no decision of a key |
| RateLimiter.OneLimitPerKey | internal/httpx/ratelimit.go:14-40 | the limiter key determines its limit, whatever the addresses look like |
| RateLimiter.OneKeyPerAddressAndScope | internal/httpx/ratelimit.go:24-40 | two limited requests share a key if and only if they share the address and are both logins or both refreshes |
| RateLimiter.QuotaOfEachPath | internal/httpx/ratelimit.go:14-36 | exactly the POST requests of three paths are limited: ten calls to either login, thirty to the refresh |
| RateLimiter.AddressesDoNotInterfere | internal/httpx/ratelimit.go:62-80 | over any traffic, dropping the requests of all other addresses changes no verdict on an address |
| RateLimiter.LogIsALimiterRun | internal/httpx/ratelimit.go:62-80 | the limited requests of any traffic are a run of the limiter in which each call has the verdict of what the calls before leave to count |
| RateLimiter.RateLimitAuth | internal/httpx/ratelimit.go:62-80 | the middleware passes a request on exactly when the traffic before admits it, with a window of one minute, and records it |
| RateLimiter.BackwardClockUndercounts | internal/httpx/ratelimit.go:96-102 | a run of three calls, the last with an earlier reading, in which the condition of `CountsLikeHistoryIff` fails and the limiter admits one call too many |
| Calendar.NormalCountsOn | internal/billing/engine.go:202-241 | the normalised date of an overflowing day lies that many days after the first of the normalised month |
| Calendar.OrdinalOrder | internal/billing/engine.go:202-241 | date order and day-number order agree in both directions |
| Calendar.NextDueDateIsLeast | internal/billing/engine.go:223-241 | the due date is the least date on or after the start with the clamped day, 0 to 30 days away, across months, leap years and years |
| Calendar.NextCycleAnchorIsLeast | internal/billing/engine.go:202-221 | the anchor is the least date strictly after the start with the clamped day, 1 to 31 days away |
| Calendar.AnchorIsDueDateFromTomorrow | internal/billing/engine.go:202-241 | the anchor of a date is the due date of the next day |
| Calendar.MonthlyTicksKeepTheDay | internal/billing/engine.go:189-200 | k monthly steps from a day up to 28 are k calendar months, same day |
| Calendar.WeeklyAndDailyTicks | internal/billing/engine.go:189-200 | k weekly or daily steps are 7k or k days |
| Calendar.MonthlyTick | internal/billing/engine.go:189-200 | one monthly step counts the day from the first of the next month on |
| Calendar.YearlyTick | internal/billing/engine.go:189-200 | one yearly step keeps the date, except that the 29th of February becomes the 1st of March |
| Calendar.Gregorian | internal/billing/engine.go:189-241 | the dates are those of the Gregorian calendar: leap years by 4, 100 and 400, the lengths of the months |
| Calendar.MonthlyDayIsStableIff | internal/billing/engine.go:189-200 | the monthly clock keeps its day for ever if and only if the day is at most 28 |
| Proration.RoundIsNearest | internal/billing/engine.go:300-312 | rounding is within one half, exact halves go away from zero |
| Proration.NearestRupiah | internal/billing/engine.go:300-312 | a prorated price, a tax and a late fee are right to the nearest rupiah; without a period the price is full |
| Proration.ProrationIsMonotone | internal/billing/engine.go:300-305 | a prorated price is monotone in price and days and lies between 0 and the price |
| Proration.PartsMakeTheWhole | internal/billing/engine.go:300-305 | the two parts of a split period add up to the price, or one more exactly when the split rounds at a half |
| Proration.InvoiceAmountIsProration | internal/billing/engine.go:38-45 | an invoice for d of n days charges the prorated price for 1 <= d <= n and the full price otherwise |
| Proration.TaxMonotone | internal/billing/engine.go:38-45 | tax is monotone in the amount and zero on zero |
| Proration.RemainingDaysCover | internal/billing/engine.go:378-390 | the remaining days are the least number of whole days that reaches the next bill, capped at the cycle, zero exactly when nothing remains |
| Proration.QuoteIsAntisymmetric | internal/billing/engine.go:392-477 | swapping the plans negates the delta and reverses the direction; a charge is asked exactly on a positive delta and covers it and its tax |
| Proration.WhichWayIsUp | internal/billing/engine.go:351-364 | an upgrade has more download, or as much download and more upload; a downgrade less; the rest is the same |
| Proration.WhatAQuoteCharges | internal/billing/engine.go:392-477 | the delta is the prorated new price less the prorated old one, each to the nearest rupiah; the tax on a positive delta is exact to the nearest rupiah; nothing is charged once no day remains |
| Proration.CycleLengths | internal/billing/engine.go:25-36 | a day, a week, 365 days for a year and 30 days otherwise |
| Proration.ChainIsNeverCheaper | internal/billing/engine.go:430-452 | before tax, no chain of changes at one moment charges less than the direct change |
| Proration.ChainTotalWithinRounding | internal/billing/engine.go:430-452 | with tax, the direct change exceeds a chain through n prices by at most n/2 |
| Proration.DirectCostsMoreIff | internal/billing/engine.go:430-452 | with tax, the direct change costs more than a chain of any length if and only if twice the tax rests of its upward steps, less the tax on what its downward steps forfeit, reaches one unit of whole tax plus two units for each rupiah forfeited and each tax rounded up |
| Proration.OneStopIsCheaperIff | internal/billing/engine.go:430-452 | with one plan in between: if and only if both steps go up, neither tax is rounded up alone, and the two rests together reach half a rupiah |
| Proration.ChainWithTaxCanBeCheaper | internal/billing/engine.go:430-452 | prices, days and rate at which that condition holds |
| Invoices.CreateManual | internal/handlers/handlers.go:3265-3345 | creation succeeds exactly for a customer in service, lines with a description, a quantity of at least one and no negative price, a discount within the subtotal, 0 to 100 percent tax, a positive total, a readable due date and a target subscription that is the customer's; the invoice then balances |
| Invoices.ApplyDiscount | internal/handlers/handlers.go:3566-3644 | a discount is applied exactly to open, undiscounted subscription invoices for which an admissible amount results; discount, tax and total are then recomputed from the items and nothing else changes |
| Invoices.WhatARuleTakes | internal/handlers/handlers.go:3619-3625 | a percentage rule takes that share of the base to the nearest rupiah, a fixed rule its amount, neither more than the base |
| Invoices.WhatAPaymentDoes | internal/store/invoices.go:317-330 | a payment adds to the paid amount; the invoice is paid exactly when nothing is left, else partly paid; a trashed one takes none |
| Invoices.LateFeeOnce | internal/store/invoices.go:934-977 | a positive late fee is added once, as its own line and untaxed, and never to a trashed invoice |
| Invoices.DiscountIsSafe | internal/handlers/handlers.go:3579-3642 | the discounted invoice balances and is taxed at the rate of the day on its plan part; 0 < discount <= plan part, the late fee stays whole and untaxed, paid <= total, and an unchanged tax rate never raises the total of an undiscounted invoice |
| Invoices.BooksAlwaysBalance | internal/store/invoices.go:934-977 | through every sequence of late fees, payments, discounts at any tax rates, trashing and restoring: total = items - discount + tax, and a subscription invoice keeps its items |
| Invoices.TotalNeverGrows | internal/handlers/handlers.go:3579-3642 | while the tax rate stays, a subscription invoice stays taxed on its discounted plan part only and its total never grows |
| Invoices.TrashKeepsTheInvoice | internal/store/invoices.go:317-330 | an invoice in the trash takes no payment, late fee or discount, and comes back as it was |
| InvoiceLabels.BuiltInDiscountRecognisedIff | internal/handlers/handlers.go:3582-3587 | the handler recognises a discount built in at issue if and only if its rule is a percentage or one of the names holds the minus sign |
| InvoiceLabels.DiscountedAgainIff | internal/handlers/handlers.go:3574-3587 | an invoice issued under a rule can be discounted again exactly when that discount is not recognised |
| Invoices.IssuedInvoicesBalance | internal/billing/engine.go:117-168 | routine invoices balance, with the late fee outside the tax |
| Invoices.DeltaInvoiceBalances | internal/billing/engine.go:532-553 | plan-change invoices balance and have a positive total |
| BillingEngine.InvoiceOfOneCycle | internal/billing/engine.go:96-168 | every routine invoice balances and is taxed on its plan part only; it charges the full price, or on the very first invoice the part for the days to the anchor; it is due today on the first invoice, else on the next due day and never before today; a late fee needs an overdue invoice |
| BillingEngine.FirstDaysReachTheAnchor | internal/billing/engine.go:101-115 | the days of the first invoice are the fewest whole days that reach the anchor, or one cycle after the start without one, between one and a period |
| BillingEngine.OverdueNeedsAnInvoice | internal/billing/engine.go:119-128 | the overdue sum is positive if and only if some issued, partly paid or overdue invoice is past due with something left to pay |
| BillingEngine.OverdueSumAdds | internal/billing/engine.go:119-128 | the overdue sum adds what is left of each such invoice, and nothing for any other |
| BillingEngine.LateFeeOfOneCycle | internal/billing/engine.go:119-168 | the late fee is the rate's share of the overdue sum to the nearest rupiah, on a line of its own; the new invoice is open |
| BillingEngine.WhatAPassTouches | internal/billing/engine.go:243-255 | a pass attempts exactly the active subscriptions whose clock has been reached, to the second |
| BillingEngine.ClockStartsFromNow | internal/billing/engine.go:174-187 | an attempt without a clock starts it one cycle from now, free plan or not, if its writes succeed |
| BillingEngine.BillingStore.GenerateInvoiceForSubscription | internal/billing/engine.go:47-187 | one attempt changes the account of its subscription to `Bill` of the old one and no other account, whichever of the two writes fails and even if the prior invoices cannot be counted |
| BillingEngine.BillingStore.SaveClock | internal/billing/engine.go:174-187 | the clock write changes one account, or nothing when it fails |
| BillingEngine.BillingStore.ProcessDueBilling | internal/billing/engine.go:243-255 | one pass bills exactly the active subscriptions whose clock is reached, each once, in any order |
| BillingClock.EventCounted | internal/billing/engine.go:174-187 | one event moves the clock by at most one cycle and issues at most one invoice, as tallied |
| BillingClock.ClockAndInvoicesConserved | internal/billing/engine.go:174-187 | over any run, with failed counts and writes, trashing and payments: clock steps = routine plus free passes, new invoices = routine passes plus those taken for the first plus lost-clock passes |
| BillingClock.ClockMovesIffHistory | internal/billing/engine.go:96-115 | a due paying pass whose writes succeed issues an invoice; it moves the clock exactly when the prior invoices are counted and one of them is not in the trash, and otherwise leaves the subscription due |
| BillingClock.TrashingForgetsTheHistory | internal/billing/engine.go:96-115 | with its only live invoice in the trash a subscription is billed as if it were new, due that day and with the clock unmoved; restoring undoes it |
| BillingClock.ElapsedDaysIff | internal/billing/engine.go:108 | where clocks change, the elapsed days are the difference of the dates if and only if the UTC offset has not become smaller in between, else one more |
| BillingClock.CatchUpBillsEveryAnchorOnce | internal/billing/engine.go:243-255 | repeated passes at one instant end, with the clock at the first anchor after it and one invoice per anchor up to it: none skipped, none doubled |
| BillingClock.FreeClockIsTheSame | internal/billing/engine.go:65-78 | caught up at one instant, a free account and a paying one with the same clock end with the same clock, and the free one gets no invoice |
| BillingClock.ActivationClockIsTheSameIff | internal/handlers/handlers.go:2737-2777 | activation leaves a free plan the paying plan's clock if and only if the subscription is new exactly when its anchor lies ahead; it never issues a free plan an invoice |
| BillingClock.FreeRunKeepsTheClock | internal/billing/engine.go:65-78 | from equal clocks, every run of reliable passes and payments ends with equal clocks and no free invoice |
| BillingClock.FreePlanFromActivation | internal/billing/engine.go:65-78 | from activation of a new subscription with its anchor ahead, over every run, the free clock is the paying one and there is no invoice |
| BillingClock.FreePlanCaughtUp | internal/billing/engine.go:65-78 | even after a backdated activation, the clocks agree once caught up at any later instant |
| BillingClock.ActivationIssuesTheFirstInvoice | internal/handlers/handlers.go:2737-2777 | for any cycle and any anchor after the start, activation of a new paying subscription issues one invoice, due the same day, for the days from the start to the anchor capped at a period, and leaves the clock on the anchor |
| BillingClock.ReactivationChargesACycle | internal/billing/engine.go:174-187 | activating a subscription with live invoices charges a full cycle and moves the clock past the anchor |
| BillingClock.ActivationThenMonthly | internal/billing/engine.go:96-200 | after activation, catching up at any later instant leaves the clock at anchor plus k months, k being exactly the number of anchors reached, with 1 + k invoices |
| BillingClock.AnyRunAfterActivation | internal/billing/engine.go:96-200 | after activation, any sequence of due passes and payments leaves the clock at anchor plus k months with exactly k routine invoices after the first |
| PlanChange.SubscriptionStore.PendingInvoicePaid | internal/store/subscription_pending.go:88-103 | paid status of the marker's invoice; a trashed one is not paid |
| PlanChange.SubscriptionStore.Admit | internal/billing/engine.go:492-509 | the guards refuse exactly the same plan, a wrong status and an upgrade read as unpaid; a paid marker is cleared if that write succeeds |
| PlanChange.SubscriptionStore.ApplyPlanChange | internal/billing/engine.go:486-616 | read by read and write by write, any of which may fail: a request is refused, deferred behind a delta invoice and a marker, carried out at once, or fails halfway, with the outcome reported |
| PlanChange.SubscriptionStore.ApplyPlanChangeToRouter | internal/handlers/handlers.go:5079-5122 | the router is pushed only after an immediate change without an error |
| PlanChange.SubscriptionStore.ApplyPendingUpgradeIfPaid | internal/handlers/handlers.go:5127-5176 | read by read and write by write, with a possible stop after the plan write: a paid marker switches the plan, is cleared if that write succeeds, and the router is pushed either way |
| PlanChange.ChangeOfPlan | internal/billing/engine.go:486-616 | from speeds and prices: a faster plan that costs more for the rest of the cycle is deferred, with plan and router unchanged and the delta invoice and its marker in place; every other change is in force at once on row and router, with an invoice exactly if it costs more |
| PlanChange.RefusalsIff | internal/billing/engine.go:492-509 | a request is refused, and changes nothing, exactly for the same plan, a wrong status or an upgrade not seen paid |
| PlanChange.RouterFollowsTheUpgrade | internal/handlers/handlers.go:5127-5176 | the router gets the plan of an applied upgrade exactly when the process goes on and the router is reached; a marker already in force only goes |
| PlanChange.UpgradeInTheTrashWaits | internal/store/subscription_pending.go:88-103 | while its invoice is in the trash no upgrade is applied, paid or not; restoring the invoice restores the state |
| PlanChange.StartIsSettled | internal/store/subscription_pending.go:27-50 | a subscription without marker or upgrade satisfies every invariant below |
| PlanChange.RequestKeepsInvIff | internal/billing/engine.go:497-616 | a request keeps the invariant if and only if it leaves no marker behind an immediate change |
| PlanChange.StepKeepsInv | internal/handlers/handlers.go:5079-5176 | every step keeps: the marker names an upgrade invoice; the plan is the old one and that invoice has switched nothing, or the new one and that invoice is paid and switched it once |
| PlanChange.RunKeepsInv | internal/handlers/handlers.go:5079-5176 | the invariant over every run of requests, payments, applies with failures and stops, lost markers, discounts, trashing and status changes in which no immediate change leaves a marker behind |
| PlanChange.UnpaidUpgradeBlocks | internal/billing/engine.go:497-508 | while the delta invoice is unpaid no apply changes anything; a valid request gets through if and only if the marker cannot be read and its own first write succeeds |
| PlanChange.ApplyIsIdempotent | internal/handlers/handlers.go:5127-5176 | applying twice, or again after a stop halfway, ends where one clean apply ends (router apart, which is stated) |
| PlanChange.RequestKeepsOneOpenIff | internal/billing/engine.go:497-571 | a request leaves a second, unmarked upgrade open exactly when its marker is lost or overwrites that of an unpaid one |
| PlanChange.AtMostOneUpgradeOpen | internal/billing/engine.go:497-571 | over every other run, every unpaid upgrade invoice is the one the marker names |
| PlanChange.SettleKeepsPrompt | internal/handlers/handlers.go:5127-5176 | a payment followed by an apply whose plan write succeeds, even one that then stops or fails to clear the marker, keeps: an upgrade invoice is paid exactly when it has switched the plan |
| PlanChange.EveryPaidUpgradeSwitchesOnce | internal/handlers/handlers.go:5127-5176 | when an apply follows each payment, whatever the requests, status changes and discounts that pay no upgrade, an upgrade invoice is paid if and only if it switched the plan exactly once |
| PlanChange.DiscountKeepsPromptIff | internal/handlers/handlers.go:3566-3644 | a discount keeps that balance if and only if it does not bring the total of an unpaid upgrade invoice down to what is already paid of it |
| PlanChange.PaidUpgradeSurvivesIff | internal/billing/engine.go:497-565 | a paid, unapplied upgrade survives the next request exactly when that request is refused or its marker neither cleared nor overwritten; otherwise the marker is gone |
| PlanChange.ForgottenForEver | internal/billing/engine.go:507-508 | once its marker is gone a paid upgrade takes effect in no continuation |
| PlanChange.NewChoiceSurvivesIff | internal/billing/engine.go:501-509 | an immediate change made over a paid marker survives the next apply if and only if that marker was read and cleared or named the same plan |
| PostPayment.Services.ResumeAfterInvoicePaid | internal/handlers/provision_helpers.go:417-450 | for every iteration order of both loops, each subscription of the payer is first upgraded and then resumed, the others are untouched |
| PostPayment.Services.ResumeSubscription | internal/handlers/provision_helpers.go:452-493 | the router gets the profile of the plan now on the row; the flag is cleared only once the router agreed |
| PostPayment.PassOutcome | internal/handlers/provision_helpers.go:417-450 | a paid upgrade is in force; without past-due invoices the row is active whatever it was, the others keep their status; the resume pushed the plan of after the upgrade |
| PostPayment.PassTwice | internal/handlers/provision_helpers.go:417-450 | a second pass for the same payment, whatever fails in it, changes neither plan nor invoices and takes no active subscription out of service; with the same answers and the marker cleared it changes nothing |
| Settlement.WalletStore.PayInvoiceFromWallet | internal/store/wallet.go:257-349 | all or nothing: pays exactly when the invoice is untrashed, open and has a positive remainder within the balance; the row is then paid in full, the balance less by the remainder, the payment recorded |
| Settlement.WalletStore.TryAutoPayInvoice | internal/billing/wallet.go:23-56 | pays the whole remainder exactly when the feature is on, the invoice belongs to a subscription and is payable from the balance; otherwise nothing changes |
| Settlement.WalletStore.PayInOrder | internal/billing/wallet.go:70-80 | the loop stops at the first unpaid invoice, having paid exactly the affordable prefix |
| Settlement.WalletStore.AutoSettleCustomer | internal/billing/wallet.go:61-81 | the rows settled are untrashed, open subscription invoices with something left, in list order; every such row before a settled one is settled too, and the first one left needs more than the balance that is left; settled rows are paid in full, all others untouched, and the money moves from the balance to the payments |
| Settlement.OutstandingComplete | internal/store/wallet.go:141-168 | a row is listed if and only if it is untrashed, for a subscription, issued, partly paid or overdue, with something left to pay |
| Settlement.AffordableIsMaximal | internal/billing/wallet.go:70-80 | the first remainder left unpaid is more than the balance that is left |
| Settlement.SettleIsOldestFirst | internal/billing/wallet.go:61-81 | the specified settlement leaves out no open row before a settled one and stops only at a remainder above the balance |
| Settlement.UnderpaidStaysListed | internal/store/wallet.go:141-168 | a subscription invoice that a payment leaves underpaid stays listed |
| Settlement.WalletStore.CompleteWalletTopup | internal/handlers/wallet.go:132-153 | credits the event's amount, else the metadata's, else the intent's, and settles; refuses a non-positive one without effect; balance plus payments grows by exactly that amount |
| Settlement.PaysTheLongestPrefix | internal/billing/wallet.go:61-81 | a prefix of the outstanding remainders fits the balance exactly when it is no longer than the paid one |
| Settlement.AffordableSplits | internal/billing/wallet.go:61-81 | what a larger balance affords is what the smaller one affords, then what the change plus the extra affords of the rest |
| Settlement.SettleConservesMoney | internal/billing/wallet.go:61-81 | balance plus payments is conserved and the balance stays non-negative |
| Settlement.RestStaysOutstanding | internal/store/wallet.go:141-168 | after paying a prefix the outstanding list is exactly the rest, in order |
| Settlement.SplitTopUpsSettleAlike | internal/handlers/wallet.go:132-153 | however a sum is split into top-ups, settling after each ends in the same invoices, balance and payments as settling after the whole sum |
| Settlement.SettleIsFixpoint | internal/handlers/wallet.go:20-40 | settling again changes nothing |
| GatewayIntents.GatewayStore.UpdatePaymentIntentStatus | internal/store/webhook_ops.go:29-38 | overwrites the status of an intent that is not paid, and never of a paid one |
| GatewayIntents.GatewayStore.CompletePaidWebhook | internal/handlers/provision_helpers.go:629-746 | records a payment at most once per intent, closes the intent and its pending siblings; fails only where the recording fails |
| GatewayIntents.GatewayStore.ProcessPaymentWebhook | internal/handlers/handlers.go:6455-6466 | completion first, then the raw status is written |
| GatewayIntents.GatewayStore.SyncIntentStatus | internal/handlers/checkout.go:270-340 | a status poll completes a payment reported by the gateway, with the gateway's amount for QR payments |
| GatewayIntents.GatewayStore.CheckoutInvoice | internal/handlers/checkout.go:110-250 | returns the existing pending intent of the same charge or a new one for the remainder plus the fee with the remainder as base, and cancels the other pending intents unless that ignored write fails; refuses closed or fully paid invoices, and changes nothing when no intent can be created |
| GatewayIntents.NextReceipts | internal/handlers/provision_helpers.go:629-704 | an event adds exactly the receipt of the payment it books, or none |
| GatewayIntents.EventKeepsOnceIff | internal/handlers/provision_helpers.go:629-704 | an event keeps paid marks and single receipts in step if and only if it closes what it books |
| GatewayIntents.PaidIsFrozen | internal/handlers/provision_helpers.go:629-640 | once marked paid, an intent and its receipts are frozen under every sequence of events |
| GatewayIntents.ExactlyTheFirstBooking | internal/handlers/provision_helpers.go:629-704 | for any sequence of deliveries, polls, cancellations and checkouts that close what they book, an intent ends with exactly one receipt, of the worth of the first recorded payment (the reported amount up to the base, or the base), or with none if none was recorded |
| GatewayIntents.TheReceiptOfAPayment | internal/handlers/provision_helpers.go:629-704 | over any run, the one receipt of an intent is, for an invoice, the smaller of the reported amount and the base, or the base when none is reported, the base being the metadata's or else the intent's amount; for a top-up the reported, else the metadata's, else the intent's amount; the invoice's paid amount grows by exactly that and its status follows |
| GatewayIntents.SiblingsAfterAPayment | internal/handlers/provision_helpers.go:698-702 | a recorded payment of the invoice cancels exactly its other open intents, if that write succeeds, and keeps all others |
| GatewayIntents.NoPaymentNoBooking | internal/handlers/handlers.go:6455-6466 | a delivery that reports no payment writes the reported status over one that is not paid, and nothing else |
| GatewayIntents.EmptyTopUpIsRefused | internal/handlers/provision_helpers.go:629-704 | a paid event of a top-up without any positive amount changes nothing |
| GatewayIntents.PollOrCancelWithoutPayment | internal/handlers/checkout.go:270-340 | a poll without a payment and a cancellation write their status over that of an intent not known to be paid, and nothing else |
| GatewayIntents.UnderpaidStaysPayable | internal/handlers/checkout.go:110-250 | an invoice left underpaid can be checked out again, for what is left |
| GatewayIntents.EveryIntentBookedAtMostOnce | internal/handlers/provision_helpers.go:629-704 | over every such sequence no intent is booked twice and no receipt disappears |
| GatewayIntents.ClosedIff | internal/handlers/provision_helpers.go:629-704 | an intent booked by webhook or poll is closed exactly when its own status write or the trailing "paid" of the webhook succeeds; otherwise the same event books it again |
| GatewayIntents.CheckoutLeavesOnePending | internal/handlers/checkout.go:128-250 | the intent the customer is sent to charges the remainder plus the fee; it is the only pending one of the invoice if and only if the cancel write succeeds or nothing else was pending; paid ones are untouched |
| GatewayIntents.CheckoutSettlesTheRemainder | internal/handlers/provision_helpers.go:629-704 | paying a new checkout by webhook or poll, fee included or amount unreported, pays the invoice in full; over every later sequence of events the intent has exactly one receipt, of the remainder |
| GatewayIntents.ReusedCheckoutSettlesIff | internal/handlers/checkout.go:128-141 | a reused intent settles the remainder if and only if its base is the remainder of now |
| IsolirWorker.Worker.SuspendSubscription | internal/job/worker.go:311-347 | status, router and notice in order, each of which may fail |
| IsolirWorker.Worker.ResumeSubscription | internal/job/worker.go:635-652 | router first, then status and flag, each of which may fail |
| IsolirWorker.Worker.SuspendOverdue | internal/job/worker.go:175-182 | suspends exactly the listed overdue rows and reports them |
| IsolirWorker.Worker.ResumePaid | internal/job/worker.go:505-520 | resumes exactly the listed rows without past-due invoices and reports them as tried |
| IsolirWorker.Worker.RepairSecrets | internal/job/worker.go:522-621 | at most hourly, resumes exactly the rows whose secret looks isolated and that this cycle neither found overdue nor tried |
| IsolirWorker.Worker.RunIsolirBlock | internal/job/worker.go:175-186 | the three phases, in any order of rows, take each subscription through its own cycle |
| IsolirWorker.IsolatedImpliesSuspended | internal/job/worker.go:311-347 | under any failures and stops, a router-isolated service is suspended in billing |
| IsolirWorker.OneNoticePerSuspension | internal/job/worker.go:311-347 | isolation notices equal transitions into suspended |
| IsolirWorker.CycleIsARun | internal/job/worker.go:175-186 | a cycle is a run of at most one suspension and one resume of each subscription |
| IsolirWorker.WhoIsTouched | internal/job/worker.go:175-186 | a cycle suspends exactly the listed, paying services with a past-due invoice, and of the others resumes exactly those with a router that carry the flag without such an invoice or that the repair sees isolated |
| IsolirWorker.WhoIsLeftAlone | internal/job/worker.go:175-186 | closed subscriptions and free plans are changed by no cycle, whatever fails in it |
| IsolirWorker.WhatASuspensionDoes | internal/job/worker.go:311-347 | a suspension is on record before the router is asked, and noticed only the first time |
| IsolirWorker.WhatAResumeDoes | internal/job/worker.go:635-652 | a resume changes billing only if the router acknowledged it |
| IsolirWorker.FaultlessCycle | internal/job/worker.go:505-652 | from any state, a faultless cycle with repair due suspends every overdue service and puts every other one on its router without the flag, making it active unless nothing on its row is noticed; of the suspended ones exactly the stranded stay suspended |
| IsolirWorker.StrandedForEver | internal/job/worker.go:505-652 | a row with neither flag nor isolated secret is changed by no later cycle while nothing falls overdue |
| IsolirWorker.ResumeStrandsIff | internal/job/worker.go:635-652 | a resume strands its row exactly when the router agreed, the flag was cleared and the status write failed |
| IsolirWorker.RepairFreesOverdueIff | internal/job/worker.go:522-621 | repair frees a service that is still overdue exactly when the overdue list could not be read |
| Dunning.Reminders.ClaimJob | internal/store/extra_ops.go:803-818 | succeeds exactly for the first claim of a key |
| Dunning.Reminders.ProcessDunning | internal/job/worker.go:704-752 | one cycle claims and sends for the rows that the database's date lists, by the whole days from the due midnight to today's in the tenant's zone, only past the send time |
| Dunning.Reminders.RemindOnce | internal/job/worker.go:732-750 | the first matching offset claims and sends, duplicates do nothing |
| Dunning.AtMostOneReminder | internal/job/worker.go:704-752 | over any cycles, settings and failures, each (invoice, day offset) has at most one reminder, and one for every claim |
| Dunning.OnlyWhatIsDue | internal/job/worker.go:704-752 | before the send time nothing is claimed or sent; after it a claim needs a listed invoice of a paying customer with a phone, on a day among the offsets, by default -7, -3, 0, 1 and 3 |
| Dunning.ExactlyOneReminder | internal/job/worker.go:704-752 | one cycle past the send time whose day count matches an offset suffices for exactly one reminder, whatever cycles follow |
| Dunning.DayIsDateDifferenceIff | internal/job/worker.go:730-733 | that day count is the difference of the calendar dates if and only if they are the same or the earlier one does not have the smaller UTC offset |
| Dunning.OffsetCanFireIff | internal/store/invoices.go:651-678 | an offset can ever fire if and only if it lies in -7..3 shifted by the days the tenant's date is ahead of the database's |
| TenantBackup.ListTenantTables | internal/dbbackup/service.go:439-466 | the loop returns the specified list in catalogue order |
| TenantBackup.TenantTablesAre | internal/dbbackup/service.go:439-502 | a table is copied exactly when it is a plainly named base table with a tenant_id column, each once |
| TenantBackup.Database.SelectRows | internal/dbbackup/service.go:468-479 | lists exactly the rows of a table, each once |
| TenantBackup.Database.CreateTenantBackup | internal/dbbackup/service.go:209-239 | the archive lists exactly the tenant's rows of every tenant table and its own row in tenants |
| TenantBackup.Database.InsertRows | internal/dbbackup/service.go:351-360 | inserts all rows exactly when none collides and none is refused |
| TenantBackup.Database.DeleteRows | internal/dbbackup/service.go:340-348 | the first loop removes the tenant's rows from every covered table and nothing else |
| TenantBackup.Database.InsertArchive | internal/dbbackup/service.go:350-359 | the second loop succeeds exactly when every archived row can be inserted, and then adds those rows and nothing else |
| TenantBackup.Database.RestoreTenant | internal/dbbackup/service.go:318-365 | succeeds exactly on an acceptable archive whose rows can all be inserted; on any failure the database is unchanged |
| TenantBackup.InsertableIff | internal/dbbackup/service.go:350-359 | the listed rows can be restored if and only if none of their keys now belongs to another tenant |
| TenantBackup.BackupRestoreRoundTrip | internal/dbbackup/service.go:318-365 | restoring into any later database gives back exactly the tenant's rows, keeps every other tenant's rows and all other tables, and is possible exactly when no archived key was taken by another tenant |
| TenantBackup.RestoredRowByRow | internal/dbbackup/service.go:318-365 | the same row by row: a row of the tenant is there exactly as in the backup, any other row exactly as before |
| TenantBackup.RestoreIsIdempotent | internal/dbbackup/service.go:318-365 | a second restore of the same archive succeeds and changes nothing |
| PdfText.PdfEscape | internal/invoice/pdf.go:825-851 | the loop emits the escaped text between parentheses followed by the show operator |
| PdfText.WriteRune | internal/invoice/pdf.go:829-847 | the loop body writes exactly the escape of one rune |
| PdfText.EscapeReadsBack | internal/invoice/pdf.go:825-851 | a reader of literal strings after section 7.3.4.2 of ISO 32000-1, octal escapes included, stops exactly at the closing parenthesis with the sanitized text, for every string |
| PdfText.WhatIsShown | internal/invoice/pdf.go:825-851 | the middle dot is shown as a spaced dash, the ellipsis as three dots, printable ASCII as itself and any other character as a space |
| PdfText.SanitizedIsPrintable | internal/invoice/pdf.go:836-846 | sanitized text is printable ASCII, at most three times as long, and printable text is unchanged |
| PdfLayout.BreakLongToken | internal/invoice/pdf.go:657-679 | the loop breaks a long word into the specified lines |
| PdfLayout.WrapToWidth | internal/invoice/pdf.go:616-655 | paragraph, word and line loops give the specified lines |
| PdfLayout.FillParagraph | internal/invoice/pdf.go:626-652 | the loop over the words of one paragraph gives the specified lines |
| PdfLayout.FitTextSized | internal/invoice/pdf.go:681-693 | the shortening loop gives the specified text |
| PdfLayout.WrapKeepsInk | internal/invoice/pdf.go:616-679 | wrapping keeps all characters that are not white space, in order, for any text and box |
| PdfLayout.WhiteSpace | internal/invoice/pdf.go:626-652 | white space is what Unicode defines, as `strings.Fields` and `strings.TrimSpace` take it |
| PdfLayout.WordsAreBetweenSpaces | internal/invoice/pdf.go:626-652 | a text is cut into words at each white space character and nowhere else |
| PdfLayout.ParagraphsAreFilledAlone | internal/invoice/pdf.go:616-655 | lines break at line feeds; every paragraph is filled with its own words alone |
| PdfLayout.TrimmedText | internal/invoice/pdf.go:616-625 | trimming takes off white space only, and all of it |
| PdfLayout.BreakIsGreedy | internal/invoice/pdf.go:657-679 | a long word is broken as late as possible: no line but the last could take one more character |
| PdfLayout.WidthsOfGlyphs | internal/invoice/pdf.go:586-614 | the width classes of the glyphs, bold being six per cent wider; a text is as wide as its glyphs at its size |
| PdfLayout.WrappedLinesAreDrawnWhole | internal/invoice/pdf.go:616-693 | every wrapped line fits or is one too-wide character, and is drawn unshortened exactly when it fits |
| PdfLayout.ShortenKeepsTheMost | internal/invoice/pdf.go:681-693 | shortening keeps the longest prefix that fits with its ellipsis, or one character when none does |
| PdfLayout.GreedyUsesFewestLines | internal/invoice/pdf.go:626-652 | when every word fits, no order-preserving split of a paragraph uses fewer lines |
| PdfLayout.GreedyIsALayout | internal/invoice/pdf.go:626-652 | the greedy lines are consecutive groups of the words, joined by single spaces, each fitting |
| PdfDocument.EntryWidthIff | internal/invoice/pdf.go:816-820 | a cross-reference entry has 20 bytes if and only if its offset has at most ten digits |
| PdfDocument.Canvas.Text | internal/invoice/pdf.go:695-704 | a run is appended unless blank, its text escaped |
| PdfDocument.Canvas.constructor | internal/invoice/logo.go:69-108 | a canvas starts empty, with no logo or an encoded, non-empty JPEG |
| PdfDocument.Canvas.DrawJpeg | internal/invoice/pdf.go:732-737 | the image operator appears exactly when there is an image and room for it, and then the file will hold that image |
| PdfDocument.Canvas.PaidWatermark | internal/invoice/pdf.go:739-763 | the stamp operator appears together with the flag that declares its resource |
| PdfDocument.Canvas.Build | internal/invoice/pdf.go:773-823 | the emitted bytes are the file of the canvas content, its image if any, the stamp flag and the page bottom |
| PdfDict.DictReadsBack | internal/invoice/pdf.go:773-805 | any dictionary of keys, texts and dictionaries that is written is parsed back, whatever follows it |
| PdfDocument.Extras | internal/invoice/pdf.go:786-795 | optional objects are numbered from 7 and named by those numbers |
| PdfDocument.WriteBody | internal/invoice/pdf.go:806-815 | each remembered offset is where its object starts |
| PdfDocument.WriteFile | internal/invoice/pdf.go:806-823 | body, table, trailer and startxref in the specified form |
| PdfReader.ObjectReads | internal/invoice/pdf.go:765-815 | an object written by the loop is read back with its number, dictionary and a stream of the declared length, whatever bytes the stream holds |
| PdfReader.TablePlace | internal/invoice/pdf.go:806-823 | startxref holds the byte offset of the table |
| PdfReader.ObjectAtOffset | internal/invoice/pdf.go:806-815 | entry i is the byte offset of "i 0 obj" |
| PdfReader.NextEntry | internal/invoice/pdf.go:816-820 | with the entries before it in shape, an entry is readable at its 20-byte place exactly while its offset fits |
| PdfReader.DocumentReadsBack | internal/invoice/pdf.go:806-823 | reading through startxref, table and trailer (sections 7.5.4 and 7.5.5 of ISO 32000-1, /Size being count + 1) recovers every object in order if all offsets fit their entries, and nothing otherwise |
| PdfReader.TrailerReads | internal/invoice/pdf.go:820-823 | the trailer parses to the object count plus one and the number of the root object |
| PdfPage.InvoiceReadsBack | internal/invoice/pdf.go:773-823 | the same for every content, image, watermark and page bottom: readable if and only if the last object starts before byte 10^10 |
| PdfPage.BuiltFileShowsTheInvoice | internal/invoice/pdf.go:773-823 | in the built file the trailer's /Root leads to the catalogue, its /Pages to the page tree, its only kid to the page, that page's /Contents to the canvas content, /F1 and /F2 to Helvetica and Helvetica-Bold, and /Im1 and /GS1 to the image and the stamp state exactly when the canvas has them; only a file above 10^10 bytes may be unreadable |
| PdfPage.DrawnNamesResolve | internal/invoice/pdf.go:732-801 | in the file a canvas builds, every drawn /Im1 or /GS1 is found from the trailer as the image or the stamp state |

## Left out

- RateLimiter.AuthRateLimiter.Allow: assumes that the quota is positive, as the two constants are.
- RateLimiter.QuotaInEveryWindow: for runs in which the readings of each key do not decrease, as does `RateLimiter.RetryAfterIsTight`; `RateLimiter.BackwardClockUndercounts` shows why.
- RateLimiter.AuthRateLimiter.Record: one call at a time; the mutex around it is not modelled.
- Proration.InvoiceAmountIsProration: exact quotients; the rounding of binary floating point before `math.Round` is not modelled.
- BillingEngine.BillingStore.GenerateInvoiceForSubscription: price, tax, settings and the database's current date are parameters; their lookup and its errors, and the paying of a fresh invoice from the wallet, are not modelled.
- BillingClock.AnyRunAfterActivation: every pass is assumed to succeed in its count and both writes and no invoice to be trashed; `BillingClock.ClockAndInvoicesConserved` covers the other runs.
- PlanChange.RunKeepsInv: for quotes the engine can produce and requests that keep the exact condition of `PlanChange.RequestKeepsInvIff`. Service types and the generic update-subscription endpoint, which bypasses the protocol, are not modelled.
- PlanChange.EveryPaidUpgradeSwitchesOnce: assumes that the reads and writes of markers succeed, that no invoice is trashed, that an apply whose plan write succeeds follows each payment, and that no discount pays an upgrade (`PlanChange.DiscountKeepsPromptIff`).
- GatewayIntents.EveryIntentBookedAtMostOnce: for events that close what they book, the exact condition of `GatewayIntents.EventKeepsOnceIff`. Two different intents of one invoice may both be paid.
- GatewayIntents.GatewayStore.CheckoutInvoice: which pending intent is offered for reuse (provider, channel, payment link, callback address) is a parameter; fee tables and the gateway call, which creates intents as pending, are not modelled.
- GatewayIntents.GatewayStore.CompletePaidWebhook: tips, journal entries and notifications are not modelled.
- IsolirWorker.IsolatedImpliesSuspended: assumes that a router which acknowledges a resume has restored the service; how a secret is recognised as isolated is one boolean.
- PdfLayout.WrapToWidth: widths are exact scaled integers, so the rounding of binary floating point in width sums is not modelled.
- PdfText.PdfEscape: strings are sequences of Unicode scalar values; invalid UTF-8 is not modelled.
- PdfDocument.Canvas.Text: colours, positions and the other operators of the content stream are opaque strings; page geometry and logo scaling are not modelled.
- PdfPage.BuiltFileShowsTheInvoice: the reader takes the spellings that the writer uses, numbers, names, arrays and references as text up to the next entry, and no other layout that ISO 32000-1 permits; object and cross-reference streams do not occur.
- TenantBackup.Database.RestoreTenant: rows are opaque data under a primary key; their JSON encoding, secondary constraints (only as refused rows) and platform-wide backups are not modelled.
- Invoices.CreateManual: the lookup of the customer and of the target subscription, invoice numbering and the store write are parameters or not modelled.
- Dunning.OffsetCanFireIff: clocks change by less than a day and the two dates differ by at most two days, which is what time zones allow.
- Dunning.ExactlyOneReminder: message text and delivery are not modelled.
- HTTP registration, authentication, gateway and router clients, reports, exports and settings screens: plumbing or simple record keeping without a hard property.
- Concurrent API and worker processes on one tenant: they rely on database guards, so each store operation is one step.
- Deleting and restoring payments, manual late-fee scheduling and weekly reconciliation: not modelled.

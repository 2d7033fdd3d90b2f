# Synthetic log generators: a Dafny model

This project models the decision logic of two families of synthetic-log
generator scripts.

The Telegram generators (versions 2, 3 and 4) work in four steps:

- They give each user an activity tier and a premium flag.
- They schedule sessions around a premium purchase.
- They fill each session with weighted random events. Premium feature events
  are added once the user has bought premium.
- They resolve a table of historical subscription purchases into coverage
  intervals, then ask which users are premium at a check date.

The Lavka generators (versions 1 and 2) work in three steps:

- They build a purchase funnel per session: a chain of steps that starts with
  `open_app`.
- They timestamp the chain and drop a `finish_pay` logged outside 07:00–23:00.
- Version 2 adds an abandoned-cart push experiment, which involves:
  - collecting eligible users;
  - splitting them into test and control halves;
  - generating the sessions afresh with a raised payment probability for the
    test half;
  - sending one push per test user.

Every random draw is an explicit input. `Draws.Stream` maps a position to a
natural number. Each sampling function reads the positions it needs and
reports the next unused one. Three kinds of draw are modelled:

- A `rand()` draw is `(s(p) % 10^6) / 10^6`.
- `randint` is half-open for numpy (`IntAt`) and inclusive for Python's
  `random` (`IntInclAt`).
- A weighted choice (`Weighted.Pick`) is a cumulative search over integer
  weights. Probability vectors are written in permille.

Instants are whole seconds (`Clock`). The event multiplier is an integer
number of tenths, so 1.4 is 14 and `int(v * m)` is `v * m / 10`. Calendar
months stay abstract: `Subscription.MonthShift` is any function that moves an
instant strictly forward for a positive number of months. The date grids and
`weekday()` are inputs (`TelegramV4.Calendar`).

Modules, in dependency order:

- `Clock`, `Draws`, `Weighted`, `Sorting`: time units, draws, weighted choice,
  and a stable insertion sort by (user, timestamp), the same tie order as the
  lexicographic sort behind a two-column `sort_values`.
- `Activity`: tiers, event bounds, event and feature tables, platforms.
- `Schedule`: purchase instant and session scheduling (versions 2 and 3).
- `Subscription`: price table, stacked and plain resolution, coverage query.
- `History`: the historical purchase table.
- `TelegramV2`, `TelegramV3`, `TelegramV4`: per-session events and per-user logs.
- `Funnel`: the Lavka event chain and its canonical order.
- `LavkaSessions`: session start, offsets, the purchase-hour gate, sessions
  and sorting.
- `LavkaV1` and `LavkaV2`: the two Lavka scripts.

Some behaviours of the code are easy to misread. The model follows the code
in each case:

- In version 4, the rows of a session are not emitted in timestamp order. A
  premium row triggered by event i can land after the primary row of event
  i+1. The model proves distinct instants and increasing primary rows only
  (`TelegramV4.EmitEvents`).
- Lavka timestamps use a fresh `randint(20, 60)` per event. A session's rows
  can therefore go backwards in time or share an instant. The model claims only
  that every row lies within ten minutes of the session start.
- Lavka version 2 records push instants from a first pass whose rows are
  thrown away. The event table comes from a second pass with fresh draws, so
  a push instant belongs to a session that is not in the table.
- The eligibility test of Lavka version 2 reads the drawn chain. A
  `finish_pay` that the time gate dropped still counts as a finished payment
  (`LavkaV2.DroppedPaymentIsNotAbandonment`).
- Versions 2 and 3 resolve subscriptions without stacking. Version 4 stacks
  consecutive plans.

## Model

| member | source | states |
|---|---|---|
| Clock.HourOf | Analysing_telegram_users/gen_logs_telegram_script_v4.py:110 | the hour of an instant is the unique h < 24 whose hour of the day contains the instant |
| Draws.IntAt | Analysing_telegram_users/gen_logs_telegram_script_v4.py:165 | numpy `randint(lo, hi)` lies in [lo, hi) |
| Draws.IntInclAt | e-commerce/Yandex_lavka/lavka_generate_script_v1.py:62-69 | Python `random.randint(lo, hi)` lies in [lo, hi], both ends included |
| Draws.IntAtReachesEveryValue | Analysing_telegram_users/gen_logs_telegram_script_v4.py:165 | every value of [lo, hi) is the result of some draw |
| Weighted.Pick | Analysing_telegram_users/gen_logs_telegram_script_v3.py:117-119 | a weighted choice picks an index with positive weight whose cumulative bracket contains the draw |
| Weighted.PickUnique | Analysing_telegram_users/gen_logs_telegram_script_v3.py:117-119 | the bracket of a positive-weight index picks exactly that index |
| Weighted.Choose | Analysing_telegram_users/gen_logs_telegram_script_v3.py:117-119 | the chosen value is a listed value with positive weight |
| Weighted.ZeroWeightNeverChosen | Analysing_telegram_users/gen_logs_telegram_script_v3.py:117-119 | a value whose only weight is 0 is never chosen |
| Weighted.PositiveWeightReachable | Analysing_telegram_users/gen_logs_telegram_script_v3.py:117-119 | every value with positive weight is chosen by some draw |
| Sorting.SortBy | Analysing_telegram_users/gen_logs_telegram_script_v4.py:320 | sorting by (user, timestamp) yields an ordered permutation of the input |
| Sorting.InsertStable | Analysing_telegram_users/gen_logs_telegram_script_v4.py:320 | an inserted row goes in front of the rows with its key and leaves every key's rows in their order |
| Sorting.SortByStable | Analysing_telegram_users/gen_logs_telegram_script_v4.py:320 | the sort is stable: for every key, the rows with that key keep their input order |
| Activity.PolicyOf | Analysing_telegram_users/gen_logs_telegram_script_v3.py:51-55 | every tier allows at least one session and one event, with min ≤ max |
| Activity.AssignActivityCategory | Analysing_telegram_users/gen_logs_telegram_script_v3.py:65-72 | active iff r < 0.2, medium iff 0.2 ≤ r < 0.7, rare iff r ≥ 0.7 |
| Activity.AssignActivityCategoryMonotone | Analysing_telegram_users/gen_logs_telegram_script_v3.py:65-72 | a larger draw never gives a more active tier |
| Activity.AssignActivityCategoryCoversTiers | Analysing_telegram_users/gen_logs_telegram_script_v3.py:51-72 | every tier is reached by some draw, and the tier shares sum to 1 |
| Activity.ScaleMonotone | Analysing_telegram_users/gen_logs_telegram_script_v3.py:111-114 | truncating `v * m` is monotone in v |
| Activity.EventBounds | Analysing_telegram_users/gen_logs_telegram_script_v3.py:111-114 | the scaled bounds are ordered, are the table's bounds at 1.0, and never drop below the minimum for m ≥ 1.0 |
| Activity.EventsCountAt | Analysing_telegram_users/gen_logs_telegram_script_v3.py:111-114 | `events_count` lies in [⌊min·m⌋, ⌊max·m⌋] |
| Activity.SessionsCountAt | Analysing_telegram_users/gen_logs_telegram_script_v2.py:143-146 | `total_sessions` lies in the tier's [min_sessions, max_sessions] |
| Activity.EventWeightsFacts | Analysing_telegram_users/gen_logs_telegram_script_v3.py:18-22 | there are twelve types and weights; `buy_premium` is type 6, has weight 0 and is listed nowhere else |
| Activity.PremiumWeightsFacts | Analysing_telegram_users/gen_logs_telegram_script_v3.py:30-40 | one weight per premium feature, and the weights sum to 1 |
| Activity.EventTypeAt | Analysing_telegram_users/gen_logs_telegram_script_v3.py:117-119 | the drawn event type is listed in `event_types` and is never `buy_premium` |
| Activity.PremiumFeatureAt | Analysing_telegram_users/gen_logs_telegram_script_v3.py:132-135 | the drawn feature is one of the premium features |
| Activity.DominantPlatformAt | Analysing_telegram_users/gen_logs_telegram_script_v3.py:93-96 | the dominant platform is iOS or Android, and iOS iff the draw falls in the first 0.6 |
| Activity.SessionPlatformAt | Analysing_telegram_users/gen_logs_telegram_script_v3.py:105-109 | the session platform is the dominant one or Desktop, and the dominant one whenever the draw is below 0.8 |
| Schedule.PurchaseInstant | Analysing_telegram_users/gen_logs_telegram_script_v3.py:155 | the purchase falls between day 5 and the end of day 25 after the start |
| Schedule.Multiplier | Analysing_telegram_users/gen_logs_telegram_script_v3.py:170 | the elevated multiplier applies iff the session date is on or after the purchase |
| Schedule.PremiumSessions | Analysing_telegram_users/gen_logs_telegram_script_v3.py:166-171 | n sessions with consecutive ids, each −10 to 9 whole days from the purchase, elevated iff not before it |
| Schedule.RegularSessions | Analysing_telegram_users/gen_logs_telegram_script_v3.py:173-176 | n sessions with consecutive ids on days 0 to 30 after the start, all at 1.0 |
| Schedule.NoEnrichmentBeforePurchase | Analysing_telegram_users/gen_logs_telegram_script_v3.py:130-171 | a session that carries premium events is dated on or after the purchase |
| Subscription.PlanTableOrdered | Analysing_telegram_users/gen_logs_telegram_script_v3.py:43-47 | every plan lasts some months; a plan lasts longer iff it costs more; the plan determines both |
| Subscription.CalculateSubscriptionPeriods | Analysing_telegram_users/gen_logs_telegram_script_v4.py:318-338 | one resolved end per purchase row; the rows are the input rows, sorted by (user, timestamp) |
| Subscription.Stack | Analysing_telegram_users/gen_logs_telegram_script_v4.py:325-335 | each interval starts no earlier than its purchase and at the later of the purchase and the previous end, and ends the plan's months after its start, which makes it non-empty |
| Subscription.FirstIntervalStartsAtPurchase | Analysing_telegram_users/gen_logs_telegram_script_v4.py:330-331 | a user's first interval starts at the user's own purchase |
| Subscription.StackDisjoint | Analysing_telegram_users/gen_logs_telegram_script_v4.py:330-333 | a user's intervals never overlap, and their ends strictly increase |
| Subscription.ResolveIsPerUserStack | Analysing_telegram_users/gen_logs_telegram_script_v4.py:323-335 | the ends the fold gives one user's rows are the stacking of that user's rows alone |
| Subscription.OfUserOfSortedIsTimeOrdered | Analysing_telegram_users/gen_logs_telegram_script_v4.py:320 | one user's rows of the sorted table are in time order |
| Subscription.PeriodsArePerUserStacks | Analysing_telegram_users/gen_logs_telegram_script_v4.py:318-338 | in the resolved table, each user's ends are the stacking of that user's time-ordered purchases |
| Subscription.CoveringUsers | Analysing_telegram_users/gen_logs_telegram_script_v4.py:348-351 | a user is listed iff one of the user's rows has timestamp ≤ T < end |
| Subscription.Unique | Analysing_telegram_users/gen_logs_telegram_script_v4.py:351 | the result has no repeats and the same members, with earlier entries kept in front |
| Subscription.ActivePremium | Analysing_telegram_users/gen_logs_telegram_script_v4.py:348-351 | each covered user appears once, and only covered users appear |
| Subscription.PremiumFlag | Analysing_telegram_users/gen_logs_telegram_script_v4.py:346-353 | the flag is 0 or 1, and 1 iff some row of the user has timestamp ≤ T < end |
| Subscription.ExpiryInstantNotCovered | Analysing_telegram_users/gen_logs_telegram_script_v4.py:348-351 | a coverage that ends exactly at T does not make its user premium at T |
| Subscription.CoveredIffInsideInterval | Analysing_telegram_users/gen_logs_telegram_script_v4.py:346-353 | for time-ordered rows, "a purchase at or before T ends after T" iff "T lies inside a stacked interval" |
| Subscription.SinglePurchaseScenario | Analysing_telegram_users/gen_logs_telegram_script_v4.py:318-353 | a lone three-month purchase covers exactly [purchase, purchase + 3 months) |
| Subscription.PlainEnd | Analysing_telegram_users/gen_logs_telegram_script_v3.py:215-217 | the non-stacked end is later than the purchase |
| Subscription.PlainPeriods | Analysing_telegram_users/gen_logs_telegram_script_v3.py:219 | the table keeps its rows in input order, each with an end after its purchase |
| Subscription.PlainCoverage | Analysing_telegram_users/gen_logs_telegram_script_v3.py:215-225 | without stacking, covered at T iff some own purchase has timestamp ≤ T < timestamp + months |
| Subscription.SinglePurchaseStackIsPlain | Analysing_telegram_users/gen_logs_telegram_script_v4.py:330-332 | for a single purchase, the stacked and the plain end agree |
| History.WeightTablesAreDistributions | Analysing_telegram_users/gen_logs_telegram_script_v4.py:298-312 | the purchase-count, plan and source weights each sum to 1 |
| History.SourceAt | Analysing_telegram_users/gen_logs_telegram_script_v2.py:216 | the source is in-app iff the draw falls in the first 0.8 |
| History.CandidateAt | Analysing_telegram_users/gen_logs_telegram_script_v2.py:207 | a candidate date lies in the 365 days from 2022-01-01 |
| History.FreshDate | Analysing_telegram_users/gen_logs_telegram_script_v2.py:207-209 | the redraw loop returns a date in the year not already used by the user |
| History.FreshFirstCandidate | Analysing_telegram_users/gen_logs_telegram_script_v2.py:207-209 | an unused first candidate is returned without a redraw |
| History.PurchaseAt | Analysing_telegram_users/gen_logs_telegram_script_v2.py:205-218 | a historical row of the user, in the year, priced by its plan, at an unused date |
| History.PurchasesFrom | Analysing_telegram_users/gen_logs_telegram_script_v2.py:205-218 | n more rows of the user, all at pairwise distinct dates |
| History.UserHistory | Analysing_telegram_users/gen_logs_telegram_script_v2.py:201-218 | one to three purchases per user, at pairwise distinct dates |
| History.HistoricalTable | Analysing_telegram_users/gen_logs_telegram_script_v2.py:196-218 | every row belongs to a sampled user and is priced by its plan; every sampled user has a row |
| TelegramV2.PlatformWeights | Analysing_telegram_users/gen_logs_telegram_script_v2.py:94-98 | both weight vectors sum to 1, give every platform a chance, and give iOS 0.75 or 0.4 |
| TelegramV2.AssignPlatform | Analysing_telegram_users/gen_logs_telegram_script_v2.py:94-98 | the platform is one of the four, chosen with positive weight |
| TelegramV2.AssignPlatformReachesEveryPlatform | Analysing_telegram_users/gen_logs_telegram_script_v2.py:94-98 | every platform is assigned by some draw, whatever the premium flag |
| TelegramV2.PremiumUsersFavourIOS | Analysing_telegram_users/gen_logs_telegram_script_v2.py:96-98 | iOS has the largest premium weight, and more weight for premium users than for the rest |
| TelegramV2.UsageRows | Analysing_telegram_users/gen_logs_telegram_script_v2.py:126-134 | k usage rows of the user, all at the primary's timestamp, each with a premium feature |
| TelegramV2.EventsFrom | Analysing_telegram_users/gen_logs_telegram_script_v2.py:111-134 | count rows in the session; when enriched, count to 3·count usage rows, each at the user and instant of a log row; otherwise none |
| TelegramV2.GenerateSessionEvents | Analysing_telegram_users/gen_logs_telegram_script_v2.py:104-136 | the count is within the scaled bounds, every row is in [date, date + 1 day), and usage appears only for a premium user above 1.0 |
| TelegramV2.ExpandSessions | Analysing_telegram_users/gen_logs_telegram_script_v2.py:169-177 | every row and usage row comes from one of the planned sessions |
| TelegramV2.SessionsAround | Analysing_telegram_users/gen_logs_telegram_script_v2.py:168-177 | the usage rows of a premium user never precede the purchase |
| TelegramV2.PremiumUserLogs | Analysing_telegram_users/gen_logs_telegram_script_v2.py:148-177 | one purchase row priced by its plan in days 5–25, a `buy_premium` row at that instant, then only drawn events, and usage after the purchase |
| TelegramV2.RegularUserLogs | Analysing_telegram_users/gen_logs_telegram_script_v2.py:179-183 | a regular user gets only drawn events, with no purchase and no usage |
| TelegramV2.UserLogs | Analysing_telegram_users/gen_logs_telegram_script_v2.py:141-183 | only premium users get a purchase and usage rows, and usage never precedes the purchase |
| TelegramV3.PrimaryAt | Analysing_telegram_users/gen_logs_telegram_script_v3.py:116-128 | a primary row is in the session, on the session's day, and not `buy_premium` |
| TelegramV3.EventsFrom | Analysing_telegram_users/gen_logs_telegram_script_v3.py:116-142 | exactly count rows, or 2·count when enriched; each premium row directly follows a primary row at the same timestamp |
| TelegramV3.GenerateSessionEvents | Analysing_telegram_users/gen_logs_telegram_script_v3.py:101-144 | one platform per session (dominant or Desktop), the count within bounds, and one premium companion per primary row iff enriched |
| TelegramV3.PlannedSession | Analysing_telegram_users/gen_logs_telegram_script_v3.py:166-171 | every row belongs to its planned session and day; premium rows only in elevated sessions |
| TelegramV3.ExpandSessions | Analysing_telegram_users/gen_logs_telegram_script_v3.py:166-176 | every row comes from one of the planned sessions |
| TelegramV3.PurchaseThenSessions | Analysing_telegram_users/gen_logs_telegram_script_v3.py:158-171 | a `buy_premium` row followed by rows with later premium events has no premium row before a purchase |
| TelegramV3.SessionsAround | Analysing_telegram_users/gen_logs_telegram_script_v3.py:166-171 | the user's rows, with premium rows only on or after the purchase |
| TelegramV3.PremiumRowsAfterPurchase | Analysing_telegram_users/gen_logs_telegram_script_v3.py:166-171 | with the 1.4/1.0 rule, no premium row precedes the purchase instant |
| TelegramV3.PremiumUserLogs | Analysing_telegram_users/gen_logs_telegram_script_v3.py:154-171 | a premium user's log has a purchase row no later than every premium row, and uses n + 1 fresh session ids |
| TelegramV3.RegularUserLogs | Analysing_telegram_users/gen_logs_telegram_script_v3.py:172-176 | a regular user's rows are all drawn primary events |
| TelegramV3.UserLogs | Analysing_telegram_users/gen_logs_telegram_script_v3.py:147-176 | premium rows appear only for premium users, never before the purchase |
| TelegramV4.BandWeights | Analysing_telegram_users/gen_logs_telegram_script_v4.py:114-134 | each band's weights match its features, are all positive, and sum to 1 |
| TelegramV4.ContextualPremiumEvent | Analysing_telegram_users/gen_logs_telegram_script_v4.py:109-134 | hours 0–6 give a night feature, 7–17 a day feature, and 18–23 an evening feature |
| TelegramV4.PlatformMattersOnlyInEvening | Analysing_telegram_users/gen_logs_telegram_script_v4.py:114-134 | outside the evening, or between non-iOS platforms, the platform does not change the draw |
| TelegramV4.IOSFavoursAppIconInEvening | Analysing_telegram_users/gen_logs_telegram_script_v4.py:127-132 | in the evening, iOS raises the app icon's weight, lowers reactions and keeps animated pictures |
| TelegramV4.BandFeaturesReachable | Analysing_telegram_users/gen_logs_telegram_script_v4.py:109-134 | every feature of the band is returned by some draw |
| TelegramV4.SessionStartAt | Analysing_telegram_users/gen_logs_telegram_script_v4.py:149-163 | weekday evening or any hour but the last, weekend daytime or evening, as the branch draw decides |
| TelegramV4.WeekendStartsAfterTen | Analysing_telegram_users/gen_logs_telegram_script_v4.py:157-163 | a weekend session starts between 10:00 and midnight |
| TelegramV4.PlannedTimes | Analysing_telegram_users/gen_logs_telegram_script_v4.py:165-166 | n planned instants, the first 2–9 s after the start, each 2–9 s after the previous one |
| TelegramV4.PlannedTimesIncreasing | Analysing_telegram_users/gen_logs_telegram_script_v4.py:165-166 | the planned instants strictly increase, the i-th 2(i+1) to 9(i+1) s after the start |
| TelegramV4.NextFree | Analysing_telegram_users/gen_logs_telegram_script_v4.py:172-173 | the bump loop returns the first instant at or after t that is not taken |
| TelegramV4.EmitExtras | Analysing_telegram_users/gen_logs_telegram_script_v4.py:192-207 | num premium rows, later than the primary, at fresh distinct instants, with features of the primary's hour band |
| TelegramV4.PremiumCountAt | Analysing_telegram_users/gen_logs_telegram_script_v4.py:189-190 | at most three premium rows, and some iff the session is enriched and the draw is below 0.7 |
| TelegramV4.EmitGroup | Analysing_telegram_users/gen_logs_telegram_script_v4.py:170-207 | the primary lands at the first free instant from its planned one; the group's instants were free, are now taken, and are distinct |
| TelegramV4.EmitEvents | Analysing_telegram_users/gen_logs_telegram_script_v4.py:168-207 | one group per planned instant; all instants of the session distinct; primary rows increasing; exactly count rows unless enriched |
| TelegramV4.GenerateSessionEvents | Analysing_telegram_users/gen_logs_telegram_script_v4.py:138-209 | one session and platform, distinct instants after the date, premium rows only when enriched, count within bounds (at most four times when enriched) |
| TelegramV4.SessionTiming | Analysing_telegram_users/gen_logs_telegram_script_v4.py:141-166 | the session platform, a count within the scaled bounds, and planned instants after the date in increasing order |
| TelegramV4.MultiplierV4 | Analysing_telegram_users/gen_logs_telegram_script_v4.py:258 | 1.4 iff the user has a purchase and the session date is on or after it, else 1.0 |
| TelegramV4.PurchaseDayNotElevated | Analysing_telegram_users/gen_logs_telegram_script_v4.py:258 | a session on the purchase day, after midnight, stays at 1.0; the next day is elevated |
| TelegramV4.SlotAt | Analysing_telegram_users/gen_logs_telegram_script_v4.py:252-279 | active: the grid day with 1–2 sessions; medium: 0–6 days on with 1–2; rare: 0–30 days on with 1 |
| TelegramV4.SessionsAt | Analysing_telegram_users/gen_logs_telegram_script_v4.py:255-259 | count sessions with fresh ids; premium rows only for premium users after the purchase |
| TelegramV4.UserSessions | Analysing_telegram_users/gen_logs_telegram_script_v4.py:251-279 | every row comes from a session with a fresh id and has no premium row before the purchase |
| TelegramV4.PurchaseV4 | Analysing_telegram_users/gen_logs_telegram_script_v4.py:221-246 | the purchase falls in the 181 days of the period and is priced by its plan |
| TelegramV4.UserLogs | Analysing_telegram_users/gen_logs_telegram_script_v4.py:216-279 | a premium user's log opens with the `buy_premium` row of the single purchase, and no premium row precedes it; regular users have neither |
| Funnel.CoinsAt | e-commerce/Yandex_lavka/lavka_generate_script_v2.py:65-94 | the flips respect the dependencies, and the draws consumed depend on whether add and pay happened |
| Funnel.ChainOf | e-commerce/Yandex_lavka/lavka_generate_script_v1.py:32-54 | a chain starts with `open_app` and has 1 to 11 steps |
| Funnel.ChainAt | e-commerce/Yandex_lavka/lavka_generate_script_v2.py:65-94 | the chain starts with `open_app`, is in canonical order without repeats, and holds exactly the flipped steps |
| Funnel.ChainSelectsCanonically | e-commerce/Yandex_lavka/lavka_generate_script_v1.py:32-54 | the chain equals the canonical order with the unselected steps struck out |
| Funnel.CartStepsNeedAdd | e-commerce/Yandex_lavka/lavka_generate_script_v1.py:38-49 | remove, coupon and pay page appear only with `add_to_cart` |
| Funnel.FinishRightAfterPay | e-commerce/Yandex_lavka/lavka_generate_script_v1.py:46-49 | `finish_pay` appears only immediately after `pay_page` |
| Funnel.FinishFollowsPay | e-commerce/Yandex_lavka/lavka_generate_script_v2.py:79-88 | in an ordered chain, `finish_pay` sits right after `pay_page` |
| Funnel.TestArmOnlyRaisesFinish | e-commerce/Yandex_lavka/lavka_generate_script_v2.py:82-88 | for the same draws, the arms differ only in the finish flip, and a control finish is a test finish |
| Funnel.TestChainExtendsControlChain | e-commerce/Yandex_lavka/lavka_generate_script_v2.py:82-88 | test and control chains agree on every step but `finish_pay`, which the test chain keeps whenever control has it |
| LavkaSessions.SessionStartAt | e-commerce/Yandex_lavka/lavka_generate_script_v1.py:67-69 | the session starts on a whole minute, between 07:00 and 22:59, within 100 days of the first day |
| LavkaSessions.OffsetAt | e-commerce/Yandex_lavka/lavka_generate_script_v1.py:72 | event i lies i·k seconds after the start for one whole k in [20, 60], so between 20·i and 60·i seconds |
| LavkaSessions.TimesAt | e-commerce/Yandex_lavka/lavka_generate_script_v2.py:189-190 | the first event is at the session start, and event i lies i·k seconds after it for one whole k in [20, 60] |
| LavkaSessions.Emit | e-commerce/Yandex_lavka/lavka_generate_script_v1.py:71-80 | every row is a chain step at its own timestamp with the session's id, and a logged `finish_pay` passes the gate |
| LavkaSessions.EmitKeepsChain | e-commerce/Yandex_lavka/lavka_generate_script_v1.py:71-80 | when the payment instants pass the gate, the rows carry the whole chain in order |
| LavkaSessions.EmitDropsLateFinish | e-commerce/Yandex_lavka/lavka_generate_script_v1.py:71-80 | when they fail, the rows carry the chain without `finish_pay` |
| LavkaSessions.EmitLogsChain | e-commerce/Yandex_lavka/lavka_generate_script_v1.py:71-80 | for any instants, the rows carry the whole chain or the chain without its one `finish_pay` |
| LavkaSessions.EmitKeepsOtherSteps | e-commerce/Yandex_lavka/lavka_generate_script_v2.py:189-198 | the gate never changes how often any other step occurs |
| LavkaSessions.GateFailsOnlyAfterTenPm | e-commerce/Yandex_lavka/lavka_generate_script_v2.py:97-98 | within ten minutes of a 07:00–22:59 start, the gate fails only for sessions starting in the 22:00 hour |
| LavkaSessions.OpensOnce | e-commerce/Yandex_lavka/lavka_generate_script_v1.py:33 | an ordered chain opens the app exactly once |
| LavkaSessions.SessionAt | e-commerce/Yandex_lavka/lavka_generate_script_v1.py:68-80 | a well-formed session from the chain drawn after its start: its steps are the chain, or the chain without its finish, and a finish goes missing only in the 22:00 hour |
| LavkaSessions.SessionsAt | e-commerce/Yandex_lavka/lavka_generate_script_v1.py:68-80 | n well-formed sessions of the user |
| LavkaSessions.OpenAppPerSession | e-commerce/Yandex_lavka/lavka_generate_script_v1.py:68-80 | a run of sessions logs one `open_app` row per session |
| LavkaSessions.SortRows | e-commerce/Yandex_lavka/lavka_generate_script_v1.py:85-86 | the table is a permutation of the log, ordered by (user, timestamp); rows with equal user and timestamp keep their log order |
| LavkaSessions.SessionCountAt | e-commerce/Yandex_lavka/lavka_generate_script_v1.py:62-66 | the session count lies in the user type's closed range, and all three draws are consumed |
| LavkaSessions.FirstDayAt | e-commerce/Yandex_lavka/lavka_generate_script_v1.py:67 | the first day is 0 to 10 days after the start date |
| LavkaSessions.UserSessionsAt | e-commerce/Yandex_lavka/lavka_generate_script_v1.py:60-80 | a user gets a count of well-formed sessions within the type's range |
| LavkaV1.GenerateSessionsForUser | e-commerce/Yandex_lavka/lavka_generate_script_v1.py:60-80 | the user's rows sit in their sessions, never log a late payment, and hold 30–70, 15–30 or 3–10 `open_app` rows by type |
| LavkaV1.EventsLog | e-commerce/Yandex_lavka/lavka_generate_script_v1.py:82-83 | every row belongs to a listed user, and no logged payment fails the gate |
| LavkaV1.EventsTable | e-commerce/Yandex_lavka/lavka_generate_script_v1.py:85-86 | the table is the log, sorted by (user, timestamp) |
| LavkaV2.FirstPush | e-commerce/Yandex_lavka/lavka_generate_script_v2.py:136-142 | no push iff no session qualifies; otherwise the push of the first qualifying session, inside the window |
| LavkaV2.FirstPushAt | e-commerce/Yandex_lavka/lavka_generate_script_v2.py:110-142 | the user's sessions are drawn in the control arm, and the push is present iff one of them qualifies, and is then the push of the first qualifying one |
| LavkaV2.FirstPass | e-commerce/Yandex_lavka/lavka_generate_script_v2.py:110-142 | one part per user of the table, each holding only that user's sessions and the push of its first qualifying session |
| LavkaV2.Record | e-commerce/Yandex_lavka/lavka_generate_script_v2.py:141-142 | the dict's keys are distinct; a user is a key iff one of its table rows has a push, and its value is the push of its first such row |
| LavkaV2.EligibilityPass | e-commerce/Yandex_lavka/lavka_generate_script_v2.py:104-142 | a user is recorded iff one of its first-pass sessions qualifies, with the push of the first qualifying session of its first such row; entries are distinct, inside the window and for users of the table |
| LavkaV2.Split | e-commerce/Yandex_lavka/lavka_generate_script_v2.py:151-153 | the halves concatenate to the input, and control is as large as test or one larger |
| LavkaV2.SplitPartitions | e-commerce/Yandex_lavka/lavka_generate_script_v2.py:148-153 | with distinct users, the halves are disjoint and together hold every user |
| LavkaV2.AssignGroups | e-commerce/Yandex_lavka/lavka_generate_script_v2.py:148-157 | test has ⌊n/2⌋ entries and control the rest, all recorded entries, in shuffled order |
| LavkaV2.ShuffleAt | e-commerce/Yandex_lavka/lavka_generate_script_v2.py:148-149 | the shuffled ids are a permutation of the recorded ids, and the shuffle takes one draw per swap |
| LavkaV2.ShuffleKeepsDistinct | e-commerce/Yandex_lavka/lavka_generate_script_v2.py:149 | a shuffle of distinct users is still distinct |
| LavkaV2.GroupsPartitionEligible | e-commerce/Yandex_lavka/lavka_generate_script_v2.py:148-159 | every eligible user lands in exactly one group |
| LavkaV2.ReactionAt | e-commerce/Yandex_lavka/lavka_generate_script_v2.py:210 | the reaction is `converted` iff the draw falls in the top tenth |
| LavkaV2.TouchpointsAt | e-commerce/Yandex_lavka/lavka_generate_script_v2.py:205-211 | one `push_abandon_cart` touchpoint per test entry, at its recorded instant |
| LavkaV2.TouchpointsReachOnlyTest | e-commerce/Yandex_lavka/lavka_generate_script_v2.py:205-211 | a user is touched iff in the test group, no control user is touched, and every push lies in the window |
| LavkaV2.ExperimentLog | e-commerce/Yandex_lavka/lavka_generate_script_v2.py:172-198 | every row belongs to a listed user, and no logged payment fails the gate |
| LavkaV2.EventsTable | e-commerce/Yandex_lavka/lavka_generate_script_v2.py:200 | the table is the second pass's log, sorted by (user, timestamp) |
| LavkaV2.Experiment | e-commerce/Yandex_lavka/lavka_generate_script_v2.py:104-211 | the first pass's record is shuffled and split; the second pass starts after the shuffle's draws and runs the raised 0.3 finish threshold exactly for the test group's users; the pushes reach exactly those users, each at its recorded instant |
| LavkaV2.TestSessionExtendsControlSession | e-commerce/Yandex_lavka/lavka_generate_script_v2.py:184-187 | with the same draws, a test session starts at the same instant and has the control chain, with at most `finish_pay` added |
| LavkaV2.DroppedPaymentIsNotAbandonment | e-commerce/Yandex_lavka/lavka_generate_script_v2.py:125-136 | a gate-dropped payment shows the pay page without a finish in the log, yet the session does not qualify |

## Left out

- Random-number generation: seeding and the generators' internals are not modelled. All of numpy's, `random`'s and Faker's draws come from one abstract stream, so the interleaving of the real generators is not reproduced. The touchpoint reactions use a separate stream (`ns`).
- Draw positions do not follow the scripts' call order. In versions 2 and 3 of the Telegram generator, `Schedule.PremiumSessions` and `Schedule.RegularSessions` draw every session's day offset before any session's events; the scripts draw each offset just before that session's events. `TelegramV2.EventsFrom` leaves one position unused in a session without premium usage. Every property holds for any stream, so none depends on the positions.
- `random.sample` of historical users: the sampled users are an input to `History.HistoricalTable`.
- `random.shuffle` of eligible users is modelled as the swap loop of `LavkaV2.ShuffleAt`, one draw per swap. How Python turns a raw draw into an index below i + 1 is left out with the other generator internals.
- Python set iteration order: `test_group` is built by iterating a set. The model keeps the shuffled order, since set order is unspecified.
- `fake.uuid4()` session ids are modelled as counter ids (`nextId`), which are fresh by construction.
- Calendar arithmetic is not modelled:
  - `DateOffset(months=…)` is an abstract month shift that only moves instants forward.
  - The `date_range` grids and `weekday()` are inputs.
- Floating point: probabilities are exact reals or permille weights. Multipliers are tenths. No float rounding is modelled.
- Statistical fidelity: the model says which outcomes are possible, not how likely they are.
- User tables: the user and location columns, Lavka `user_type_probs`, platforms and cities are not modelled. Users enter the model as `Activity.User` or `LavkaSessions.Customer`.
- The conversion-rate premium selection in Telegram (`conversion_rate_by_activity`) is not modelled; the premium flag is part of the user.
- DataFrames, CSV writes and prints are not modelled, and neither is the reset of `is_premium` on the user table, beyond `Subscription.PremiumFlag`.
- The campaigns table: only the `push_abandon_cart` window is modelled.
- `price_by_type` in version 2: the script never defines it, so the script would stop with a NameError at the first premium user. The model prices version 2 purchases with the table of versions 3 and 4.
- TelegramV2.EventsFrom: states the total number of usage rows (count to 3·count) and that each shares a log row's instant, not that each primary row has one to three of its own.
- History.FreshDate: the date redraw loop has no bound in the script. The model gives it a fuel count and returns `None` when the fuel runs out, so it states nothing about draws that need more redraws than the fuel allows.
- Lavka session ids print the start instant. Two sessions of one user that start at the same instant share an id; the model keeps that collision (`SessionId(user, start)`).

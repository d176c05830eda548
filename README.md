# SCUM bunker bot and admin panel — a Dafny model of the business logic

The system is a Discord bot for the survival game SCUM plus a web admin panel.
The bot tracks bunker timers per server and sector, runs an in-game taxi
service with a bank, pays daily rewards and fame-point rewards, opens support
tickets, sends reset alerts, keeps per-guild subscriptions and limits command
use with sliding-window rate limiters. The admin panel is a FastAPI backend
(bunker, fame, taxi, user and superadmin modules, an authorization helper and a
bridge that writes bot configuration) and a React frontend (API helpers and
client-side stores).

This project models the logic of that system that does not depend on Discord,
SQL or the network, one Dafny module per source file:

- Values (zones, fares, statuses, validator results, configuration values) are
  datatypes. Computations are functions with named results, and the properties
  the code promises are lemmas about them.
- Database tables are `map` and `seq` fields of a class per store (for example
  `TaxiDatabase.TaxiStore`, `BunkerDatabaseV2.BunkerDatabase`,
  `TicketDatabase.TicketStore`). Every operation that writes a table is a
  method with `modifies`. Its `ensures` states the whole new state and the
  result, and a `Valid()` invariant is kept over every table.
- The rate limiters keep their per-user and per-guild deques as `seq<real>`
  fields, pruned from the front and appended at the back, as the source does.
- Wall-clock time, generated ids and database failures are parameters.
- The shared modules `Wrappers` (Option and Result), `Text` (strip, split,
  join, integer parsing, zero padding and ASCII case mapping) and `Ordering`
  (sortedness and insertion) are written once and imported.

Paths in the table below are relative to the repository root. Files at the
root belong to the bot; files under `ADMIN_PANEL/` belong to the panel.

## Model

| member | source | states |
|---|---|---|
| TaxiFareRoutes.DistanceSymmetric | ADMIN_PANEL/backend/app/modules/taxi/routes.py:27-31 | the distance between two points does not depend on which point is the origin |
| TaxiFareRoutes.DistanceToSelf | ADMIN_PANEL/backend/app/modules/taxi/routes.py:27-31 | a point is at distance zero from itself, and zero is the only such distance |
| TaxiFareRoutes.DistanceUnique | ADMIN_PANEL/backend/app/modules/taxi/routes.py:27-31 | the non-negative distance in km (the square root divided by 1000) is determined by the two points |
| TaxiFareRoutes.TimeMultiplier | ADMIN_PANEL/backend/app/modules/taxi/routes.py:620-625 | 1.0 by default; the night factor at night, the peak factor at peak hours, and their product when both apply |
| TaxiFareRoutes.LookupMultiplier | ADMIN_PANEL/backend/app/modules/taxi/routes.py:616-618 | a missing vehicle, zone or level row gives exactly 1.0; a present one gives its stored multiplier |
| TaxiFareRoutes.CalculateFare | ADMIN_PANEL/backend/app/modules/taxi/routes.py:575-662 | a guild without a configuration row fails with 500 (the 404 is re-raised); otherwise the vehicle, zone and level factors are the stored multipliers (1.0 for a missing row), the time factor the night and peak product, the fare the multiplied subtotal raised to the minimum fare, the commission its percentage and the driver earnings the rest times the level bonus |
| TaxiFareRoutes.CommissionSplit | ADMIN_PANEL/backend/app/modules/taxi/routes.py:634-635 | with a driver bonus of 1 the commission and the driver earnings add up to the passenger's fare |
| TaxiFareRoutes.DriverLevelDoesNotChangeFare | ADMIN_PANEL/backend/app/modules/taxi/routes.py:634-657 | the driver's level changes only the driver's earnings, never the fare or the commission |
| TaxiFareRoutes.SubtotalMonotone | ADMIN_PANEL/backend/app/modules/taxi/routes.py:612-631 | with non-negative rates and multipliers the subtotal grows with the distance |
| TaxiFareRoutes.FareMonotoneInDistance | ADMIN_PANEL/backend/app/modules/taxi/routes.py:613-631 | of two otherwise equal requests, the longer trip never costs the passenger less |
| TaxiConfig.ZoneRules | taxi_config.py:487-513 | exactly the five restrictions no_taxi, combat_zone, safe_zone, neutral and trade_zone have rules |
| TaxiConfig.RuleForAllows | taxi_config.py:487-513 | only a no-taxi zone refuses pick-ups, and only no-taxi and combat zones refuse drop-offs |
| TaxiConfig.GridToCoordinates | taxi_config.py:539-553 | a text not of length 2, an unknown row letter or a column over 4 gives (0, 0); a non-digit second character is a ValueError; otherwise row and column are both in 0..4 and named by the letter and digit |
| TaxiConfig.PadToSubgrid | taxi_config.py:555-565 | pad 1..9 is ((p-1) div 3, (p-1) mod 3) and every other pad the centre (1, 1) |
| TaxiConfig.GridDistance | taxi_config.py:567-593 | defined exactly when both grids convert; then 1.4 times the Manhattan distance of the two pad points, never negative |
| TaxiConfig.GridDistanceSymmetric | taxi_config.py:567-593 | swapping origin and destination gives the same distance (or the same error) |
| TaxiConfig.GridDistanceToSelf | taxi_config.py:567-593 | a grid and pad is at distance 0 from itself |
| TaxiConfig.ZoneDistance | taxi_config.py:595-609 | 10 km when either zone lacks a grid or a pad, otherwise the grid distance of the two |
| TaxiConfig.CalculateFare | taxi_config.py:745-757 | 0 when the taxi is switched off; otherwise base plus distance rate, scaled by the vehicle's cost multiplier, 1.0 for an unknown vehicle |
| TaxiConfig.GetDriverLevel | taxi_config.py:764-773 | the loop's result is the level stored under the threshold the scan settles on |
| TaxiConfig.LevelKeyIsLargestReached | taxi_config.py:764-773 | on ascending thresholds that threshold is the largest one not above the ride count, or the start value 0 when none is reached |
| TaxiConfig.DefaultLevelBounds | taxi_config.py:526-532 | with the default table fewer than 10 rides is level 0 (novice) and 100 or more the top level |
| TaxiConfig.ValidateVehicleZone | taxi_config.py:897-961 | an unknown zone or vehicle is refused; explicitly allowed exactly when the zone lists the vehicle; each later refusal (no shared access type, restricted zone type, no-taxi zone, the plane, boat or seaplane rule) is given exactly when the checks before it pass and it fails; allowed exactly when all pass |
| TaxiConfig.Clamp | taxi_config.py:963-1000 | grid and pad indices are forced into their ranges and left alone when already inside |
| TaxiConfig.PadNumber | taxi_config.py:963-1000 | the pad number (2 - pad row) * 3 + pad column + 1 is always in 1..9 |
| TaxiConfig.PadNumberInverse | taxi_config.py:555-565 | pad_to_subgrid_coords inverts the pad numbering of coords_to_grid_pad |
| TaxiConfig.CoordsToGridPad | taxi_config.py:963-1000 | the answer is a letter A..E, a digit 0..4, '-' and a pad 1..9, computed from the clamped grid and pad indices |
| TaxiConfig.FirstMatch | taxi_config.py:855-895 | none exactly when no zone of the table matches; otherwise the first match in table order |
| TaxiConfig.FindFirst | taxi_config.py:855-895 | the scanning loop returns the first match of the table |
| TaxiConfig.FirstMatchAt | taxi_config.py:855-895 | the zone at the first matching index is the one found |
| TaxiConfig.FindZoneByName | taxi_config.py:855-895 | the four scans run in order (exact name, either-way substring, grid-pad text, taxi stops) and the first hit wins |
| TaxiConfig.ExactNameFirst | taxi_config.py:857-862 | a zone whose name equals the query (ignoring case) is found by exact name, ahead of any partial match |
| TaxiConfig.StopMatchIsSafe | taxi_config.py:875-893 | every hit that is not reported as a safe zone came from the PvP zone table, so stop hits are always safe zones |
| TaxiAdmin.Cooldowns.constructor | taxi_admin.py:26 | no user has a stored time at start |
| TaxiAdmin.Cooldowns.CheckCooldown | taxi_admin.py:45-52 | refused exactly when the user's stored time is less than 2 seconds old; a refusal changes nothing, an acceptance stores now for that user only |
| TaxiAdmin.FormatZoneWithCoordinates | taxi_admin.py:29-43 | the zone name alone when x or y is missing, otherwise the name followed by the grid-pad of the point in parentheses; always starts with the name |
| TaxiAdmin.PadOffset | taxi_admin.py:2870-2876 | pads 1..9 are laid out like a numeric keypad with offsets of -250, 0 or 250 on each axis; pad 5 and unknown pads give (0, 0) |
| TaxiAdmin.GridToCoords | taxi_admin.py:2857-2882 | (0, 0, 0) for an empty grid or pad 0; otherwise x is the column letter times 1000 plus the pad offset, y the row number times 1000 (0 when not numeric) plus the offset, and z is 100 |
| TaxiAdmin.GridToCoordsInjectiveOnPads | taxi_admin.py:2857-2882 | distinct pads 1..9 of one grid square land on distinct points |
| TaxiAdmin.RequestFareEstimate | taxi_admin.py:2784-2786 | the estimate is (base + 5 * per-km rate) times the vehicle's cost multiplier |
| TaxiAdmin.EstimateIsFiveKmFare | taxi_admin.py:2784-2786 | the estimate equals calculate_fare for a 5 km trip of that vehicle |
| TaxiAdmin.DisplayName | taxi_admin.py:145-147 | names up to 25 characters are kept; longer ones become their first 22 characters and "..." (25 in all) |
| TaxiAdmin.EntriesCount | taxi_admin.py:127-150 | a section lists at most 5 zones, skipping no-taxi zones without counting them |
| TaxiAdmin.ListZones | taxi_admin.py:127-150 | the zone loop produces exactly the specified entry lines |
| TaxiAdmin.OfType | taxi_admin.py:97-102 | the grouping keeps only zones of the given type (missing type counts as "other") |
| TaxiAdmin.TruncateContent | taxi_admin.py:171-185 | the truncation loop produces the specified truncated content |
| TaxiAdmin.CostOfJoin | taxi_admin.py:171-185 | the loop's running length (each line plus one) is the joined text's length plus one |
| TaxiAdmin.KeepLinesShape | taxi_admin.py:176-184 | the lines kept are a prefix whose cost stays within 3800 and which the next line would overflow, followed by exactly the three notice lines |
| TaxiAdmin.TruncatedContentShape | taxi_admin.py:171-185 | content over 3900 characters becomes the longest prefix of whole lines costing at most 3800, then exactly three notice lines |
| TaxiAdmin.BuildSection | taxi_admin.py:120-152 | one type's section: heading, rule, the listed zones and a blank line, or nothing for a type without zones |
| TaxiAdmin.BuildSections | taxi_admin.py:119-152 | the sections of the types in the fixed order, concatenated |
| TaxiAdmin.BuildZonesContent | taxi_admin.py:86-187 | the whole listing is the header, the sections and the rates/legend footer joined by newlines, then truncated |
| TaxiDatabase.UserIdOf | taxi_database.py:853-862 | the internal user id of the first user with that discord id, and none exactly when no user has it |
| TaxiDatabase.AccountNumberShape | taxi_database.py:228 | "TAX" followed by at least six digits whose value is the user id, so distinct users get distinct account numbers |
| TaxiDatabase.LicenseNumberShape | taxi_database.py:378 | "DRV" followed by at least six digits whose value is the user id, so distinct drivers get distinct licences |
| TaxiDatabase.VehicleList | taxi_database.py:693-700 | a JSON list of vehicles, or a single legacy name (none when empty) |
| TaxiDatabase.TransferConserves | taxi_database.py:334-356 | a transfer between two accounts conserves their sum, moves exactly the amount, and touches no other account |
| TaxiDatabase.ValidateRoute | taxi_database.py:737-781 | valid exactly when the vehicle is known, a plane flies between airports, a boat touches water or an island, and an island end is reached by boat or seaplane |
| TaxiDatabase.PlaneRefusedOnZoneDicts | taxi_database.py:473-477 | as written, zone dictionaries are handed to validate_route, so a plane is refused even between two airports |
| TaxiDatabase.PlaneAcceptedBetweenAirports | taxi_database.py:737-781 | given zone names, a plane between two airports is accepted |
| TaxiDatabase.TaxiStore.constructor | taxi_database.py:18-21 | all tables start empty |
| TaxiDatabase.TaxiStore.RegisterUser | taxi_database.py:205-278 | an existing (discord id, guild) is refused with nothing changed; a new user gets the next id, account "TAX" + six digits, the welcome bonus only when the pack is enabled, and a bonus transaction only when it is positive |
| TaxiDatabase.TaxiStore.TransferMoney | taxi_database.py:311-363 | refused for a missing, inactive or short source and then for a missing destination, changing nothing; otherwise debit, credit and exactly one transfer record |
| TaxiDatabase.TaxiStore.RegisterDriver | taxi_database.py:365-391 | an existing driver is refused with nothing changed; otherwise an offline driver with licence "DRV" + six digits |
| TaxiDatabase.DistanceInMapUnits | taxi_config.py:534-537 | the bot's fallback distance is the plain Euclidean distance in map units, not divided by 1000 |
| TaxiDatabase.TaxiStore.CreateTaxiRequest | taxi_database.py:438-512 | a passenger with a pending, accepted or in-progress request is refused, then a forbidden pickup, then (with all three destination coordinates truthy) a forbidden drop-off and a refused route, each with its own error; a request passing every check is created (route checked on zone names, the corrected behaviour), and only then: a new pending request is appended, with distance and cost set exactly when the destination is given, and the passenger then has an active request, so the next attempt is refused |
| TaxiDatabase.TaxiStore.AcceptRequest | taxi_database.py:660-735 | succeeds only on a pending request (so an accepted one is refused with NotPending), an available or online driver and a vehicle the driver has; then the request becomes accepted with that driver, and nothing else changes |
| TaxiDatabase.TaxiStore.UpdateDriverStatus | taxi_database.py:844-880 | a status outside available, busy, offline and break is refused before any change; otherwise only that driver's status changes |
| EconomicCalculator.Ceil | economic_calculator.py:45-46 | math.ceil: the least integer not below the real |
| EconomicCalculator.CeilDivIsLeast | economic_calculator.py:45-46 | for a positive step, ceil(amount / step) is the least whole number of steps whose sum reaches the amount |
| EconomicCalculator.DivideAntitone | economic_calculator.py:74-77 | dividing a non-negative amount by a larger positive step gives a smaller quotient |
| EconomicCalculator.ExactFare | economic_calculator.py:26-29 | before rounding: total = base + km * per-km rate, the driver gets total * commission and the platform the rest, so driver + platform = total |
| EconomicCalculator.CalculateTaxiFare | economic_calculator.py:24-35 | each of the three figures is the exact one rounded to cents (half to even), so the rounded driver and platform shares add up to the rounded total within 0.015 |
| EconomicCalculator.DriverEarningGrows | economic_calculator.py:24-35 | a longer trip earns the driver at least as much, and every trip earns something |
| EconomicCalculator.AnalyzeTaxiDistances | economic_calculator.py:37-52 | one row per analysed distance, keyed "<km>km", in order |
| EconomicCalculator.TripsAreFewestNeeded | economic_calculator.py:37-52 | the trip counts are the fewest trips earning 1000 and 5000, and 5000 never takes fewer trips than 1000 |
| EconomicCalculator.AverageTripEarning | economic_calculator.py:69 | the driver earning of the average 5 km trip as calculate_taxi_fare returns it: the exact 24.375 rounded to 24.38 |
| EconomicCalculator.ScenarioFor | economic_calculator.py:74-86 | one option: taxi income trips * 24.38, daily income 250 plus that (whole cents, so rounding leaves them), days = ceil(remaining / daily income), weeks and months the days over 7 and 30 within 0.05 (one decimal) |
| EconomicCalculator.CentsStayCents | economic_calculator.py:81-82 | incomes built from whole trips at 24.38 are whole cents and so unchanged by round(x, 2) |
| EconomicCalculator.OneTripCoversInOneDay | economic_calculator.py:69-77 | with the rounded 24.38, one trip a day covers 274.379 in one day, where the exact 24.375 would need two |
| EconomicCalculator.CalculateTimeToTarget | economic_calculator.py:54-93 | a target covered by the start reports already reached with the excess; otherwise one scenario per trips-per-day option 0, 1, 2, 3, 5, 10, keyed "<n>_trips_per_day", each the option's scenario built on the rounded average earning |
| EconomicCalculator.DaysNeededIsFewest | economic_calculator.py:74-86 | a scenario's days are the fewest days whose income covers the remaining amount |
| EconomicCalculator.MoreTripsNeverSlower | economic_calculator.py:74-77 | more trips per day never need more days |
| EconomicCalculator.PlanDaysNonIncreasing | economic_calculator.py:74-86 | along the options of a plan the days needed never increase |
| EconomicOptimization.ResultsCover | economic_optimization.py:96-127 | every target gets an entry, and the entry is that target's day counts |
| EconomicOptimization.DaysAreFewest | economic_optimization.py:102-110 | each count is the fewest days whose income (daily, daily + 2 trips, daily + 5 trips) covers what the welcome bonus leaves missing |
| EconomicOptimization.TripsShortenThePlan | economic_optimization.py:102-110 | for a target not yet reached, five trips a day take at most as many days as two, and two at most as many as none |
| EconomicOptimization.Proposal.constructor | economic_optimization.py:55-62 | a proposal holds its three figures and description, with no results yet |
| EconomicOptimization.CalculateWithConfig | economic_optimization.py:85-130 | the same proposal is returned, its inputs unchanged, having gained the results of the three targets and the driver's share of a 32.5 fare |
| SlidingWindow.LimitsIn | rate_limiter_original.py:327 | a named command gets its own limits, any other the default limits |
| SlidingWindow.GuildKey | rate_limiter_original.py:436 | the guild id as text, or "dm" outside a guild |
| SlidingWindow.Trunc | rate_limiter_original.py:342 | int() on a float truncates toward zero |
| SlidingWindow.PrunedDropsOnlyOldPrefix | rate_limiter_original.py:370-386 | pruning drops a prefix of old timestamps and stops at the first recent one |
| SlidingWindow.PruneFront | rate_limiter_original.py:378-386 | the popleft loop leaves exactly the pruned queue |
| SlidingWindow.PrunedKeepsExactlyTheWindow | rate_limiter_original.py:370-386 | on a queue in time order, pruning keeps exactly the timestamps inside the window |
| SlidingWindow.PrunedIdempotent | rate_limiter_original.py:370-386 | pruning twice with the same cutoff removes nothing more |
| SlidingWindow.Decide | rate_limiter_original.py:336-361 | cooldown, then user window, then guild window; each refusal carries its reason and the truncated wait |
| SlidingWindow.DecideOrder | rate_limiter_original.py:336-361 | allowed exactly when no check trips, and a tripping check wins over every later one |
| SlidingWindow.RetryAfterIsEnough | rate_limiter_original.py:336-361 | retrying the advertised wait plus one second later, with the same queues, the refusing check no longer trips |
| SlidingWindow.PrunedKeepsRecentLast | rate_limiter_original.py:370-386 | the last timestamp survives pruning when it is not older than the cutoff |
| SlidingWindow.CooldownSpacesUses | rate_limiter_original.py:336-342 | after a use recorded at t, a check before t + cooldown is refused for the cooldown |
| SlidingWindow.QueueOf | rate_limiter_original.py:18-30 | an absent queue of the defaultdict reads as empty |
| SlidingWindow.PrunedIsSubsequence | rate_limiter_original.py:370-386 | pruning never lengthens a queue, and every kept timestamp was there before |
| SlidingWindow.PruningNeverAppends | rate_limiter_original.py:370-386 | pruning one key of a queue map never appends to any queue |
| SlidingWindow.ClearedUser | rate_limiter_original.py:526-538 | one command's queue emptied, or with no (or an empty) command name every queue of that user in the guild |
| RateLimiterOriginal.UnknownCommandUsesDefault | rate_limiter_original.py:309-313 | an unnamed command gets 10 uses per 60 s per user, 50 per 60 s per guild and a 5 s cooldown |
| RateLimiterOriginal.RateLimiter.constructor | rate_limiter_original.py:18-30 | empty queues and the command table |
| RateLimiterOriginal.RateLimiter.CleanupOldTimestamps | rate_limiter_original.py:370-386 | only the named user queue and guild queue are pruned from the front |
| RateLimiterOriginal.RateLimiter.IsRateLimited | rate_limiter_original.py:316-361 | prunes the two queues and answers the ordered decision; it never appends |
| RateLimiterOriginal.RateLimiter.RecordUsage | rate_limiter_original.py:363-368 | appends now to exactly one user queue and one guild queue |
| RateLimiterOriginal.RateLimiter.GetUsageStats | rate_limiter_original.py:388-403 | the current queue lengths beside the command's limits |
| RateLimiterOriginal.GetRateLimitStats | rate_limiter_original.py:516-524 | the usage figures of every command in the table except "default" |
| RateLimiterOriginal.ClearUserLimits | rate_limiter_original.py:526-538 | clears one command's queue or all of the user's queues; guild queues are never touched |
| RateLimiterOriginal.RateLimitedWrapper | rate_limiter_original.py:405-511 | without an interaction, or when the check raises, the command runs unlimited; a limited call is skipped and records nothing; an allowed call is recorded before the command runs |
| RateLimiterFixed.UnknownCommandUsesDefault | rate_limiter_fixed.py:121-125 | an unnamed command gets 10 uses per 60 s per user, 50 per 60 s per guild and a 5 s cooldown |
| RateLimiterFixed.RateLimiter.constructor | rate_limiter_fixed.py:19-30 | empty queues and the command table |
| RateLimiterFixed.RateLimiter.CleanupOldTimestamps | rate_limiter_fixed.py:182-198 | only the named user queue and guild queue are pruned from the front |
| RateLimiterFixed.RateLimiter.IsRateLimited | rate_limiter_fixed.py:128-173 | prunes the two queues and answers cooldown, user limit or guild limit in that order; it never appends |
| RateLimiterFixed.RateLimiter.RecordUsage | rate_limiter_fixed.py:175-180 | appends now to the user queue and the guild queue |
| RateLimiterFixed.RateLimiter.GetUsageStats | rate_limiter_fixed.py:200-215 | the current queue lengths beside the command's limits |
| RateLimiterFixed.GetRateLimitStats | rate_limiter_fixed.py:304-312 | the usage figures of every command in the table except "default" |
| RateLimiterFixed.ClearUserLimits | rate_limiter_fixed.py:314-326 | clears one command's queue or all of the user's queues; guild queues are never touched |
| RateLimiterFixed.AttachedWrapper | rate_limiter_fixed.py:229-284 | the attached wrapper skips a limited call, records an allowed one before running it, and runs unlimited when the check raises |
| RateLimiterFixed.CallDecorated | rate_limiter_fixed.py:286-289 | the decorator returns the function itself, so a decorated command always runs and the limiter is untouched |
| RateLimiterCurrent.UnknownCommandUsesDefault | rate_limiter.py:91 | an unnamed command gets 15 uses per 60 s per user, 60 per 60 s per guild and a 3 s cooldown |
| RateLimiterCurrent.RateLimiter.constructor | rate_limiter.py:16-30 | empty queues and the command table |
| RateLimiterCurrent.RateLimiter.CleanupOldTimestamps | rate_limiter.py:147-158 | only the named user queue and guild queue are pruned from the front |
| RateLimiterCurrent.RateLimiter.CheckAndRecord | rate_limiter.py:94-145 | prunes, then refuses by cooldown, user window or guild window without appending; an allowed use appends the same now to both queues; a failing check lets the use through |
| RateLimiterCurrent.CallDecorated | rate_limiter.py:180-190 | the decorator returns the function itself, so a decorated command always runs and the limiter is untouched |
| RateLimiterCurrent.GetRateLimitStats | rate_limiter.py:192-193 | the stub always answers an empty dictionary |
| RateLimiterCurrent.ClearUserLimits | rate_limiter.py:195-196 | the stub clears nothing |
| RateLimiterMinimal.UnknownCommandUsesDefault | rate_limiter_minimal.py:36 | an unnamed command gets 10 uses per 60 s per user, 50 per 60 s per guild and a 5 s cooldown |
| RateLimiterMinimal.RateLimiter.constructor | rate_limiter_minimal.py:16-30 | empty queues and the command table |
| RateLimiterMinimal.RateLimiter.CleanupOldTimestamps | rate_limiter_minimal.py:92-103 | only the named user queue and guild queue are pruned from the front |
| RateLimiterMinimal.RateLimiter.CheckAndRecord | rate_limiter_minimal.py:39-90 | prunes, then refuses by cooldown, user window or guild window without appending; an allowed use appends the same now to both queues; a failing check lets the use through |
| RateLimiterMinimal.CallDecorated | rate_limiter_minimal.py:125-135 | the decorator returns the function itself, so a decorated command always runs and the limiter is untouched |
| RateLimiterMinimal.GetRateLimitStats | rate_limiter_minimal.py:137-138 | the stub always answers an empty dictionary |
| RateLimiterMinimal.ClearUserLimits | rate_limiter_minimal.py:140-141 | the stub clears nothing |
| EconomicCalculator.DistanceRowFor | economic_calculator.py:43-50 | the row of one distance: the fare rounded to cents, a positive driver earning and the ceilings of 1000 and 5000 over that rounded earning |
| BunkerDatabaseV2.SeedMapKeys | database_v2.py:129-140 | the seeded rows are exactly one per sector D1, C4, A1, A3, all under the new server and guild |
| BunkerDatabaseV2.SeedStep | database_v2.py:136-140 | one insertion of the loop extends the seeded prefix by one row, and its key was free unless it was taken before the loop |
| BunkerDatabaseV2.AddKeepsValid | database_v2.py:119-144 | adding a server with its four seeded bunkers keeps every bunker under a known server and every server with all four sectors |
| BunkerDatabaseV2.WithoutMatchingExact | database_v2.py:162-167 | the DELETE removes exactly the matching notifications and keeps the others in order |
| BunkerDatabaseV2.ScheduledExactlyFuture | database_v2.py:312-336 | only reminders after now are scheduled, all of them are, unsent and for the one bunker |
| BunkerDatabaseV2.RemindersAroundTimer | database_v2.py:318-336 | a timer more than two hours away gets all four reminders, one closed a day ago none, and while the bunker is not closed its closing reminder comes last |
| BunkerDatabaseV2.Classify | database_v2.py:256-299 | closed while the expiry is ahead, active for the 24 hours after it with the time open and the time left, expired after that with the time since; the spans split into hours and minutes |
| BunkerDatabaseV2.StatusPartition | database_v2.py:259-294 | every registered timer is in exactly one of closed, active and expired, decided by its distance from now |
| BunkerDatabaseV2.TimerLifecycle | database_v2.py:201-294 | a timer set a positive span ahead is closed now, active from its expiry and expired a day later |
| BunkerDatabaseV2.UsageCheckFor | database_v2.py:453-509 | no timestamp: may register; otherwise may register exactly when 72 hours have passed, and then the next slot is absent; while refused, the next slot is 72 hours after the last use and the hours remaining are reported rounded to one decimal, so they read 0.0 exactly when at most 0.05 hours remain |
| BunkerDatabaseV2.ZeroHoursShownWhileWaiting | database_v2.py:494-507 | 71.96 hours after a registration the check reports 0.0 hours remaining and still refuses |
| BunkerDatabaseV2.OnePerPeriod | database_v2.py:494-504 | after a registration at t the next one is allowed from t + 72 h and not before |
| BunkerDatabaseV2.BunkerDatabase.constructor | database_v2.py:14-16 | empty tables |
| BunkerDatabaseV2.BunkerDatabase.AddServer | database_v2.py:119-148 | the server row and its four bunkers, all or nothing; a taken server or bunker key answers False and writes nothing; validity kept |
| BunkerDatabaseV2.BunkerDatabase.RemoveServer | database_v2.py:150-178 | refused for "Default" and for a server the guild does not have; otherwise the server's notifications, bunkers and row go and nothing else |
| BunkerDatabaseV2.BunkerDatabase.ScheduleNotifications | database_v2.py:312-336 | the bunker's old notifications are deleted, then its future reminders appended in order |
| BunkerDatabaseV2.BunkerDatabase.RegisterBunkerTime | database_v2.py:201-228 | expiry = now + hours and minutes; the matching row, if any, records who and when; reminders are rescheduled even when no row matched |
| BunkerDatabaseV2.BunkerDatabase.GetBunkerStatus | database_v2.py:230-301 | None for an unknown bunker; otherwise its row with no_data, or the state of its timer at now |
| BunkerDatabaseV2.BunkerDatabase.GetAllBunkersStatus | database_v2.py:303-310 | the statuses of D1, C4, A1, A3 that exist, in that order |
| BunkerDatabaseV2.BunkerDatabase.StatusesPerSector | database_v2.py:303-310 | at most one status per sector, and a seeded server shows all four in order |
| BunkerDatabaseV2.BunkerDatabase.GetUniqueServers | database_v2.py:388-405 | the guild's distinct server names sorted without repeats, or just "Default" when there are none |
| BunkerDatabaseV2.BunkerDatabase.CheckDailyUsage | database_v2.py:453-509 | the usage check of the user's latest registration |
| BunkerDatabaseV2.BunkerDatabase.IncrementDailyUsage | database_v2.py:511-532 | the registration at now becomes the user's latest, so a check at the same moment refuses another |
| BunkerModels.ValidateServerName | ADMIN_PANEL/backend/app/modules/bunkers/models.py:33-39 | refused when blank once stripped or longer than 50 as sent, otherwise stripped |
| BunkerModels.ServerNameIdempotent | ADMIN_PANEL/backend/app/modules/bunkers/models.py:33-39 | a validated name validates again to itself |
| BunkerModels.ValidateMaxBunkers | ADMIN_PANEL/backend/app/modules/bunkers/models.py:41-47 | accepted exactly from 1 to 1000 |
| BunkerModels.ValidateMaxBunkersUpdate | ADMIN_PANEL/backend/app/modules/bunkers/models.py:58-64 | absent, or accepted exactly from 1 to 1000 |
| BunkerModels.MaxBunkersChecksAgree | ADMIN_PANEL/backend/app/modules/bunkers/models.py:41-64 | the update check accepts a given value exactly when the create check does |
| BunkerModels.ValidateSector | ADMIN_PANEL/backend/app/modules/bunkers/models.py:91-97 | refused when blank once stripped or longer than 20 as sent, otherwise stripped and uppercased |
| BunkerModels.SectorIdempotent | ADMIN_PANEL/backend/app/modules/bunkers/models.py:91-97 | a validated code validates again to itself |
| BunkerModels.SectorIgnoresCaseAndBlanks | ADMIN_PANEL/backend/app/modules/bunkers/models.py:91-97 | two spellings differing only in case and surrounding blanks give the same code |
| BunkerModels.ValidateDuration | ADMIN_PANEL/backend/app/modules/bunkers/models.py:99-105 | accepted exactly from 1 to 168 hours |
| BunkerModels.ValidateMinutesBefore | ADMIN_PANEL/backend/app/modules/bunkers/models.py:144-150 | accepted exactly from 0 to 1440 minutes |
| BunkerModels.ValidateHours | ADMIN_PANEL/backend/app/modules/bunkers/models.py:289-293 | accepted exactly from 0 to 168 |
| BunkerModels.ValidateMinutes | ADMIN_PANEL/backend/app/modules/bunkers/models.py:295-299 | accepted exactly from 0 to 59 |
| BunkerModels.ManualDurationBounds | ADMIN_PANEL/backend/app/modules/bunkers/models.py:280-299 | a valid manual duration lasts at most a week and 59 minutes, and its minutes never spill into another hour |
| BunkerModels.ValidateBunkerIds | ADMIN_PANEL/backend/app/modules/bunkers/models.py:308-314 | accepted exactly with 1 to 100 ids |
| BunkerModels.ValidateExportFormat | ADMIN_PANEL/backend/app/modules/bunkers/models.py:324-328 | accepted exactly for json, csv and xlsx as spelled |
| AdminBunkerRoutes.CheckGuildAccess | ADMIN_PANEL/backend/app/modules/bunkers/routes.py:356-360 | refused with 403 exactly when the guild is not the user's and the user is not super_admin |
| AdminBunkerRoutes.DivmodSpan | ADMIN_PANEL/backend/app/modules/bunkers/routes.py:414-416 | hours and minutes of the whole seconds, with minutes below 60 |
| AdminBunkerRoutes.ClassifyRegistration | ADMIN_PANEL/backend/app/modules/bunkers/routes.py:396-422 | unknown without an expiry, near_expiry within 1800 s, active further ahead with the whole hours and minutes left, expired with the whole minutes since |
| AdminBunkerRoutes.RegistrationPartition | ADMIN_PANEL/backend/app/modules/bunkers/routes.py:401-422 | every registered timer gets exactly one of near_expiry, active and expired from its distance to now |
| AdminBunkerRoutes.MatchingExact | ADMIN_PANEL/backend/app/modules/bunkers/routes.py:363-370 | a row is selected exactly when it is the guild's and, when a non-empty server name is given, that server's |
| AdminBunkerRoutes.SortByQueryOrders | ADMIN_PANEL/backend/app/modules/bunkers/routes.py:380-384 | the sort puts the rows in the ORDER BY's order (running before not running, later expiry first, no expiry last) and keeps every row exactly once |
| AdminBunkerRoutes.SelectedQueryOrder | ADMIN_PANEL/backend/app/modules/bunkers/routes.py:378-387 | the listed rows are exactly the matching ones; a running row never follows a non-running one, a row without an expiry is never followed by one with an expiry, and within a group the expiries do not increase |
| AdminBunkerRoutes.Window | ADMIN_PANEL/backend/app/modules/bunkers/routes.py:378-387 | LIMIT page_size OFFSET (page - 1) * page_size: the rows at those positions, no more than the page size |
| AdminBunkerRoutes.FilterStatusExact | ADMIN_PANEL/backend/app/modules/bunkers/routes.py:440-442 | the filter keeps exactly the rows of the requested status, in order |
| AdminBunkerRoutes.CountStatus | ADMIN_PANEL/backend/app/modules/bunkers/routes.py:392-420 | how many rows of the page have each status, counted before the filter |
| AdminBunkerRoutes.GetBunkerRegistrations | ADMIN_PANEL/backend/app/modules/bunkers/routes.py:346-452 | 403 without access; otherwise total of the matching rows, the page of the rows in ORDER BY order classified and counted before the status filter; a row without a registration fails the request |
| AdminBunkerRoutes.ClassifyPage | ADMIN_PANEL/backend/app/modules/bunkers/routes.py:396-438 | the page loop succeeds exactly when every row carries the columns the response requires, and then lists every row in order with its classification and counts the active, expired and near-expiry rows |
| AdminBunkerRoutes.UnknownNeverListed | ADMIN_PANEL/backend/app/modules/bunkers/routes.py:399-438 | a listing that succeeds never shows the unknown status |
| AdminBunkerRoutes.UnregisteredRowBreaksPage | ADMIN_PANEL/backend/app/modules/bunkers/routes.py:424-438 | a page holding a never-registered bunker fails |
| AdminBunkerRoutes.GetBunkerRegistrationsIntended | ADMIN_PANEL/backend/app/modules/bunkers/routes.py:396-452 | the listing with unregistered rows shown as unknown instead of failing |
| AdminBunkerRoutes.IntendedListsWholePage | ADMIN_PANEL/backend/app/modules/bunkers/routes.py:391-452 | without a filter every row of the page is listed in order, and the counters add up to the registered rows |
| AdminBunkerRoutes.AppliedSetsOnlyGivenFields | ADMIN_PANEL/backend/app/modules/bunkers/routes.py:163-197 | an update sets exactly the fields given and never moves the server to another guild or changes its creator |
| AdminBunkerRoutes.UpsertKeepsOneRowPerKey | ADMIN_PANEL/backend/app/modules/bunkers/routes.py:489-501 | after INSERT OR REPLACE the new row is the only one with its key and every other row keeps its id |
| AdminBunkerRoutes.ManualRegistrationStatus | ADMIN_PANEL/backend/app/modules/bunkers/routes.py:485-486 | a manual registration of more than 30 minutes starts active, a shorter one near expiry, one of zero length expired |
| AdminBunkerRoutes.AdminBunkerStore.constructor | ADMIN_PANEL/backend/app/modules/bunkers/routes.py:1-25 | empty tables |
| AdminBunkerRoutes.AdminBunkerStore.UpdateServer | ADMIN_PANEL/backend/app/modules/bunkers/routes.py:142-201 | 403 without access, 404 for a server not in the guild, 400 for an empty body, 500 when the new name is another server's of the guild (the UNIQUE(guild, name) constraint); it succeeds exactly when none of these holds, and then exactly the given fields are written |
| AdminBunkerRoutes.AdminBunkerStore.RegisterBunkerManual | ADMIN_PANEL/backend/app/modules/bunkers/routes.py:454-509 | 403, then 400 without an active uppercased sector or an active server; otherwise the bunker's row is replaced by the caller's registration |
| AdminBunkerRoutes.AdminBunkerStore.RegisterChecked | ADMIN_PANEL/backend/app/modules/bunkers/routes.py:467-501 | the sector and server checks and the upsert, under the given user id |
| AdminBunkerRoutesSimple.CreateServer | ADMIN_PANEL/backend/app/modules/bunkers/routes_simple.py:121-158 | 409 when the guild already has the name, otherwise a new active row under a fresh id |
| AdminBunkerRoutesSimple.CreateSector | ADMIN_PANEL/backend/app/modules/bunkers/routes_simple.py:228-269 | 409 when the guild already has the uppercased code, otherwise a new row holding it uppercased |
| AdminBunkerRoutesSimple.SectorCodesStayUnique | ADMIN_PANEL/backend/app/modules/bunkers/routes_simple.py:234-240 | once a code is created, creating it again in any letter case is refused |
| AdminBunkerRoutesSimple.RegisterBunkerManual | ADMIN_PANEL/backend/app/modules/bunkers/routes_simple.py:377-428 | the same checks and upsert, recorded under the user id "admin"; the bunker id counter moves on by one exactly when the row is written, the server and sector counters never |
| AdminBunkerRoutesSimple.CancelBunkerRegistration | ADMIN_PANEL/backend/app/modules/bunkers/routes_simple.py:430-450 | 404 for an id absent or of another guild, nothing deleted; otherwise exactly that row goes |
| AdminBunkerRoutesSimple.Entries | ADMIN_PANEL/backend/app/modules/bunkers/routes_simple.py:335-373 | one entry per row, in order |
| AdminBunkerRoutesSimple.GetRegistrations | ADMIN_PANEL/backend/app/modules/bunkers/routes_simple.py:302-375 | 422 for a limit outside 1..200; otherwise the first rows in ORDER BY order (running first, later expiry first), failing with 500 on a row with no registration time |
| AdminBunkerRoutesSimple.EntriesStep | ADMIN_PANEL/backend/app/modules/bunkers/routes_simple.py:336-373 | one more registered row adds its entry at the end |
| AdminBunkerRoutesSimple.EntriesClassify | ADMIN_PANEL/backend/app/modules/bunkers/routes_simple.py:339-369 | each entry has the status of the full classification and falls back from the last update to the registration time |
| AdminBunkerRoutesSimple.UnregisteredRowBreaksListing | ADMIN_PANEL/backend/app/modules/bunkers/routes_simple.py:361-369 | a listing that reaches a never-registered bunker fails |
| AdminBunkerRoutesSimple.GetRegistrationsIntended | ADMIN_PANEL/backend/app/modules/bunkers/routes_simple.py:302-375 | every selected row listed, never a 500 |
| AdminBunkerRoutesSimple.IntendedAgreesWhenRegistered | ADMIN_PANEL/backend/app/modules/bunkers/routes_simple.py:335-375 | where the written listing succeeds the intended one gives the same entries |
| AdminBunkerRoutesSimple.GetBunkersOverview | ADMIN_PANEL/backend/app/modules/bunkers/routes_simple.py:452-500 | the guild's counts of servers, sectors, registrations, active ones and those of today, none above the registrations; the most active sector is absent exactly when nothing was registered in the last seven days; healthy exactly when one is active |
| AdminBunkerRoutesSimple.MostActiveSector | ADMIN_PANEL/backend/app/modules/bunkers/routes_simple.py:487-494 | absent exactly without a registration in the last seven days, otherwise a sector of those registrations with no other sector counted more often |
| AdminBunkerRoutesSimple.LargestGroupExists | ADMIN_PANEL/backend/app/modules/bunkers/routes_simple.py:491 | among finitely many sector groups one has the largest count, so ORDER BY count DESC LIMIT 1 has a row |
| AdminBunkerRoutesSimple.RegistrationMakesHealthy | ADMIN_PANEL/backend/app/modules/bunkers/routes_simple.py:474-499 | a registration made now for a positive span makes its guild healthy |
| UserManager.AccountNumberShape | core/user_manager.py:145 | "ACC-" followed by the zero-padded id, whose digits spell the id, so distinct users get distinct numbers |
| UserManager.OrDefault | core/user_manager.py:193-200 | `value or default`: NULL and the empty text fall back, anything else is kept |
| UserManager.LatestClaimIsLatest | core/user_manager.py:497-519 | the answer is a claim time of that user (or "") and no claim of that user is later |
| UserManager.LatestClaimEmptyIffNone | core/user_manager.py:514-516 | "" for a user without claims, a non-empty time for one whose claim was stored with a time |
| UserManager.TransferConserves | core/user_manager.py:463-480 | between two users with bank rows a transfer moves exactly the amount, conserves their sum and touches no other row |
| UserManager.TransferWithoutReceiverAccountLosesMoney | core/user_manager.py:454-480 | a receiver known to the lookup but without a bank row: the sender pays and nobody is credited |
| UserManager.Lookup | core/user_manager.py:206-242 | a row exactly for a user in the users table, carrying that id and the balance of its bank row (0.0 without one) |
| UserManager.UserStore.constructor | core/user_manager.py:19-31 | empty tables |
| UserManager.UserStore.GetUserByDiscordId | core/user_manager.py:167-204 | the joined row of the user with that Discord id in that guild, or None |
| UserManager.UserStore.GetUserById | core/user_manager.py:206-242 | the joined row of that user id, or None |
| UserManager.UserStore.MissingBankRowFallbacks | core/user_manager.py:200-201 | a user without a bank row reads balance 0.0 and "ACC-" plus the padded id, in the lookup and in get_user_balance |
| UserManager.UserStore.GetUserLanguage | core/user_manager.py:278-298 | the stored language, "es" when the user is unknown or has none |
| UserManager.UserStore.GetLastDailyClaim | core/user_manager.py:497-519 | the user's latest claim time, or "" |
| UserManager.UserStore.RegisterUser | core/user_manager.py:108-165 | refuses a Discord id already registered in the guild; otherwise adds the user with balance 1000.0, language "es", the welcome pack marked and timezone "UTC" unless one is given |
| UserManager.UserStore.SystemEntry | core/user_manager.py:391-398 | a movement is logged only for a user the lookup knows |
| UserManager.UserStore.AddMoney | core/user_manager.py:375-403 | credits the bank row, if any, and logs a credit |
| UserManager.UserStore.SubtractMoney | core/user_manager.py:405-441 | refuses and changes nothing when the balance is below the amount; otherwise debits and logs a debit |
| UserManager.UserStore.TransferMoney | core/user_manager.py:443-493 | as written: both users known and the balance covering the amount, then the debit, the credit and exactly one logged entry of type "transfer" from the sender's account number to the receiver's, with the amount, the description ("Transfer" by default) and the sender's guild |
| UserManager.UserStore.TransferMoneyIntended | core/user_manager.py:443-493 | also refused when either side has no bank row, so every transfer that goes through conserves the two balances and logs the same single transfer entry |
| UserManager.UserStore.AddDailyReward | core/user_manager.py:521-559 | records the claim (500 when no amount is given) at the given time, credits the bank row and logs a daily reward |
| UserManager.NewClaimIsLast | core/user_manager.py:521-534 | a claim later than every earlier one becomes the user's last claim |
| BankingSystem.CheckTransfer | banking_system.py:269-329 | banco_transferir's checks in order: self transfer, non-positive amount, over a million, no sender account, no receiver account, balance too low |
| BankingSystem.TransferCheckOrder | banking_system.py:274-329 | each refusal is reported exactly when the checks before it pass and its own fails |
| BankingSystem.StatusBands | banking_system.py:565-576 | each status holds on exactly its balance interval, so a larger balance never shows a worse status |
| BankingSystem.NextMidnight | banking_system.py:711 | the next day with the time set to 00:00: after the claim, on the next date |
| BankingSystem.DailyReward | banking_system.py:675-769 | refused on the calendar date of the last claim with the following midnight as the next chance; otherwise 250 credited and the new balance shown |
| BankingSystem.OneClaimPerDate | banking_system.py:707-713 | a claim at t blocks every later try on its date and none from the next midnight on |
| BankingSystem.CheckTransferForm | banking_system.py:836-852 | the amount (when it parses) must be positive and within the balance, and the destination, uppercased and stripped, must start with "TAX" |
| BankingSystem.AccountNormalFormStable | banking_system.py:849 | a normalised account number normalises to itself |
| BankingSystem.StripKeepsUppercase | banking_system.py:849 | stripping an uppercased destination leaves it uppercase |
| BankingSystem.FormCheckIdempotent | banking_system.py:836-852 | checking a form again with the destination it accepted gives the same answer |
| BankingSystem.TotalIn | banking_system.py:436 | the sum of the positive amounts |
| BankingSystem.TotalOut | banking_system.py:437 | the sum of the sizes of the negative amounts |
| BankingSystem.TotalsNet | banking_system.py:436-437 | money in minus money out is the net change of the history |
| BankingSystem.CreditsOnlyHaveNoOut | banking_system.py:437 | a history of credits only has nothing out |
| SubscriptionManager.SeededPlans | subscription_manager.py:51-55 | free (1 bunker, 1 server), premium and enterprise (unlimited, -1) with their prices and flags |
| SubscriptionManager.FreeSubscription | subscription_manager.py:96-104 | the free, active row written at `now`: payment ids and period null, created_at and updated_at stamped with `now` by their CURRENT_TIMESTAMP default |
| SubscriptionManager.Joined | subscription_manager.py:68-94 | the subscription joined with its plan: missing limits read as 2 bunkers and 1 server, missing flags as false |
| SubscriptionManager.Limits | subscription_manager.py:136-156 | each count checked against its maximum unless that is -1; within limits exactly when both pass |
| SubscriptionManager.FewerStaysWithin | subscription_manager.py:144-148 | a guild within its limits stays within them with fewer bunkers and servers |
| SubscriptionManager.SeededPlanLimits | subscription_manager.py:51-55 | premium and enterprise accept any counts; free accepts one of each and refuses a second |
| SubscriptionManager.UnknownPlanDefaults | subscription_manager.py:88-89 | a plan with no plan_limits row gets two bunkers, more than the free plan |
| SubscriptionManager.SubscriptionStore.constructor | subscription_manager.py:15-16 | empty tables |
| SubscriptionManager.SubscriptionStore.Initialize | subscription_manager.py:18-66 | the three seeded plans written over their old rows, other plans kept |
| SubscriptionManager.SubscriptionStore.CreateFreeSubscription | subscription_manager.py:96-104 | the guild's row replaced by a fresh free one stamped with `now` |
| SubscriptionManager.SubscriptionStore.GetSubscription | subscription_manager.py:68-94 | an unknown guild first gets a free subscription stamped with `now`; the joined row is returned |
| SubscriptionManager.SubscriptionStore.UpgradeSubscription | subscription_manager.py:106-122 | the guild's row, if any, gets the plan, active status, the payment ids and a period of 30 days from now; no row is created |
| SubscriptionManager.SubscriptionStore.CancelSubscription | subscription_manager.py:124-134 | the guild's row goes back to free, cancelled, without payment ids |
| SubscriptionManager.SubscriptionStore.CheckLimits | subscription_manager.py:136-156 | the limit check on the guild's subscription, created free when missing |
| SubscriptionManager.CancelUndoesUpgrade | subscription_manager.py:106-134 | cancelling after an upgrade puts the free plan's limits back in force while the paid period's end stays on the row |
| ServerDatabase.Underscored | server_database.py:70 | every space replaced by '_', nothing else changed |
| ServerDatabase.ServerIdIgnoresCaseAndSpaces | server_database.py:70 | names differing only in case, or in a space against an underscore, share an id |
| ServerDatabase.ServerIdKeepsGuildsApart | server_database.py:70 | with numeric guild ids the guild is read back from the server id, so ids of different guilds differ |
| ServerDatabase.SeparatorAfterGuild | server_database.py:70 | the id is the guild, then '_', then the normalised name |
| ServerDatabase.LimitFor | server_database.py:283-307 | the configured limit, 5 when none; may add exactly while the count is below it; remaining is the difference |
| ServerDatabase.FallbackIsEmptyGuild | server_database.py:309-311 | the error answer equals the report of an empty guild without a configured limit |
| ServerDatabase.OtherAlerts | server_database.py:122-133 | exactly the rows not about that name in that guild are kept |
| ServerDatabase.NameTakenMeansIdTaken | server_database.py:23-35 | with rows keyed by their ids, the (guild, name) constraint never fires without the key constraint |
| ServerDatabase.ServerStore.constructor | server_database.py:14-16 | empty tables |
| ServerDatabase.ServerStore.AddMonitoredServer | server_database.py:65-90 | False and nothing written when the id or the (guild, name) pair is taken; otherwise the row stored with alerts on |
| ServerDatabase.ServerStore.RemoveMonitoredServer | server_database.py:92-159 | the status history and row go, then the guild's reset alerts and alert cache for the name and every reset schedule of that name in any guild; True exactly when the row existed |
| ServerDatabase.ServerStore.ToggleServerAlerts | server_database.py:261-281 | sets the flag on the row with that guild and name; True exactly when there was one |
| ServerDatabase.ServerStore.CheckServerLimit | server_database.py:283-307 | the limit report of the guild's current count |
| ServerDatabase.AddThenRemoveFindsIt | server_database.py:65-115 | a server just added is found and removed by the same guild and name |
| ServerDatabase.AddUsesOnePlace | server_database.py:65-307 | adding a server uses one place of the guild's limit |
| TicketDatabase.MaxNumber | ticket_database.py:70-73 | MAX(ticket_number) over the guild's tickets: an upper bound reached by one of them, None without tickets |
| TicketDatabase.NextNumber | ticket_database.py:67-77 | one more than the largest number, a missing or zero maximum counting as 0; above every number of the guild |
| TicketDatabase.OpenPlusClosedIsTotal | ticket_database.py:253-280 | open and closed counts add up to the total |
| TicketDatabase.CountAfterUpdate | ticket_database.py:208-280 | replacing one ticket changes each count by what the old and new ticket contribute |
| TicketDatabase.ClosedAt | ticket_database.py:211-215 | the table after closing: that ticket closed, all others unchanged |
| TicketDatabase.CloseIsFinal | ticket_database.py:214 | a closed ticket cannot be closed again |
| TicketDatabase.CloseMovesOneTicket | ticket_database.py:208-280 | closing moves one ticket of its guild from open to closed and keeps the total |
| TicketDatabase.TicketStore.constructor | ticket_database.py:15-16 | empty tables |
| TicketDatabase.TicketStore.CreateTicket | ticket_database.py:79-93 | a new open ticket under a fresh id, which is returned |
| TicketDatabase.TicketStore.CloseTicket | ticket_database.py:208-223 | closes only an open ticket; True exactly when one was closed |
| TicketDatabase.TicketStore.HasActiveTicket | ticket_database.py:129-138 | the user has an open ticket in the guild |
| TicketDatabase.TicketStore.GetTicketStats | ticket_database.py:253-280 | the guild's total, open and closed counts, which add up |
| TicketDatabase.TicketStore.SetTicketPanelMessageId | ticket_database.py:282-296 | the guild's panel replaced, other guilds kept |
| TicketDatabase.TicketStore.GetTicketPanelMessageId | ticket_database.py:298-314 | the panel stored for the guild, or None |
| TicketDatabase.NextNumberIsFresh | ticket_database.py:67-93 | a ticket numbered with the next number gets a number no earlier ticket of the guild has |
| TicketDatabase.NumbersCountUp | ticket_database.py:67-93 | numbers count up from 1 within each guild |
| FameRewardsDatabase.AllSome | fame_rewards_database.py:74 | the list comprehension: a list exactly when every item parses |
| FameRewardsDatabase.AllSomeValues | fame_rewards_database.py:74 | each value read back is the parse of its item |
| FameRewardsDatabase.AllSomeFails | fame_rewards_database.py:74 | the read fails only on an item that does not parse |
| FameRewardsDatabase.ParseStrings | fame_rewards_database.py:74-82 | every number written by str() parses back to itself |
| FameRewardsDatabase.ConfigRoundTrip | fame_rewards_database.py:63-89 | reading back what set_fame_config stored gives the same list, for any non-empty list |
| FameRewardsDatabase.EmptyConfigUnreadable | fame_rewards_database.py:74-82 | an empty list is stored as "" and cannot be read back |
| FameRewardsDatabase.Ranked | fame_rewards_database.py:176 | the claims ordered by amount descending then claim time ascending, as a permutation |
| FameRewardsDatabase.Confirmed | fame_rewards_database.py:175 | exactly the guild's confirmed claims |
| FameRewardsDatabase.TopClaims | fame_rewards_database.py:168-192 | the guild's confirmed claims in top-list order, at most limit of them (a negative LIMIT does not limit) |
| FameRewardsDatabase.TopListIsBest | fame_rewards_database.py:171-178 | no confirmed claim left off the list outranks one on it |
| FameRewardsDatabase.Decided | fame_rewards_database.py:111-132 | the table after a decision: that claim decided by the given user, all others unchanged |
| FameRewardsDatabase.DecisionIsFinal | fame_rewards_database.py:114-131 | a decided claim can be neither confirmed nor rejected again |
| FameRewardsDatabase.FameStore.constructor | fame_rewards_database.py:15-16 | empty tables |
| FameRewardsDatabase.FameStore.GetFameConfig | fame_rewards_database.py:63-77 | the stored list, or 100, 500, 1000, 2000, 5000, 10000, 15000; None when a stored item is not an integer |
| FameRewardsDatabase.FameStore.SetFameConfig | fame_rewards_database.py:79-89 | the guild's row replaced by the comma-joined list |
| FameRewardsDatabase.FameStore.CreateFameClaim | fame_rewards_database.py:92-106 | a new pending claim under a fresh id, which is returned |
| FameRewardsDatabase.FameStore.ConfirmFameClaim | fame_rewards_database.py:108-123 | only a pending claim is confirmed; True exactly when it was |
| FameRewardsDatabase.FameStore.RejectFameClaim | fame_rewards_database.py:125-140 | only a pending claim is rejected; True exactly when it was |
| FameRewardsDatabase.FameStore.HasPendingClaim | fame_rewards_database.py:255-264 | the user has a pending claim in the guild |
| FameRewardsDatabase.FameStore.HasClaimedFameAmount | fame_rewards_database.py:266-275 | the user has a confirmed claim of that amount in the guild; pending and rejected ones do not count |
| FameRewardsDatabase.FameStore.GetTopFameClaims | fame_rewards_database.py:168-192 | the top list of the guild's confirmed claims |
| FameRewardsDatabase.ConfirmRecordsAmount | fame_rewards_database.py:108-123 | confirming a claim makes its amount count as claimed by its user |
| FameRewardsSystem.Parsed | fame_rewards_system.py:426-429 | int(item.strip()) per item, None where int() raises |
| FameRewardsSystem.Kept | fame_rewards_system.py:426-433 | only values above zero are kept, never more than there were items |
| FameRewardsSystem.KeptFromItems | fame_rewards_system.py:426-433 | every kept value is the parse of some item |
| FameRewardsSystem.KeptHasPositives | fame_rewards_system.py:430-431 | every positive parsed item is kept |
| FameRewardsSystem.ValidValuesMembers | fame_rewards_system.py:426-433 | the kept values are exactly the positive integers among the items |
| FameRewardsSystem.ParseFameValues | fame_rewards_system.py:425-433 | the parse loop returns the kept values |
| FameRewardsSystem.SortInts | fame_rewards_system.py:446 | list.sort(): ascending and a permutation |
| FameRewardsSystem.ConfiguredValues | fame_rewards_system.py:445-446 | None exactly when no value is valid; otherwise the first 25 valid values as a sorted permutation, between 1 and 25 of them |
| FameRewardsSystem.ConfiguredValuesPositive | fame_rewards_system.py:430-446 | every stored value is positive |
| FameRewardsSystem.ConfigureFameValues | fame_rewards_system.py:408-476 | refused, storing nothing, without a valid value; otherwise the guild's row holds the configured values, which get_fame_config reads back |
| FameRewardsSystem.Medal | fame_rewards_system.py:133-136 | gold, silver, bronze for the first three places, then the plain medal |
| FameRewardsSystem.BuildRankingText | fame_rewards_system.py:131-147 | the loop builds one line per claim with its place's medal |
| FameRewardsSystem.RankingField | fame_rewards_system.py:130-151 | the ranking cut to 1024 characters, or the notice when there are no claims |
| FameRewardsSystem.RankingTextGrows | fame_rewards_system.py:135-147 | the text of a longer list starts with the text of the shorter one |
| FameRewardsSystem.DefaultRewards | fame_rewards_system.py:492-500 | the seven built-in reward descriptions, keyed by amount |
| FameRewardsSystem.GetStep | fame_rewards_system.py:478-500 | a database read is cached and returned; on failure the cached value, else the built-in one |
| FameRewardsSystem.SaveStep | fame_rewards_system.py:502-519 | the cache changes only when the database reports success; an exception answers False |
| FameRewardsSystem.RewardsCache.constructor | fame_rewards_system.py:24-31 | an empty cache |
| FameRewardsSystem.RewardsCache.GetRewardsConfig | fame_rewards_system.py:478-500 | one read step on the cache |
| FameRewardsSystem.RewardsCache.SaveRewardsConfig | fame_rewards_system.py:502-519 | one save step on the cache |
| FameRewardsSystem.RewardsNeverSaved | fame_rewards_system.py:482-506 | as written every database call raises, so the cache stays empty, saves answer False and reads the built-in rewards |
| FameRewardsSystem.RunIntended | fame_rewards_system.py:478-519 | the calls against a rewards table that they write and read; the cache only holds guilds it held before or the table holds |
| FameRewardsSystem.TableKeepsSaved | fame_rewards_system.py:502-510 | the table keeps a saved value until the same guild saves again |
| FameRewardsSystem.SavedRewardsAreRead | fame_rewards_system.py:478-510 | a read after a save of the same guild answers what was saved, whatever other calls come between |
| ServerDatabase.OtherHistory | server_database.py:102-105 | no status record of the server is kept, every other one is |
| ServerDatabase.OtherSchedules | server_database.py:137-140 | no schedule under the name is kept, every other one is |
| TicketDatabase.TicketStore.GetNextTicketNumber | ticket_database.py:67-77 | a number above every ticket number of the guild |
| FameModels.ParseRewardType | ADMIN_PANEL/backend/app/modules/fame/models.py:10-15 | the member whose value is the text, None for any other text |
| FameModels.RewardTypeRoundTrip | ADMIN_PANEL/backend/app/modules/fame/models.py:10-15 | a reward type's value reads back as the same type |
| FameModels.ValidateFameCost | ADMIN_PANEL/backend/app/modules/fame/models.py:28-32 | accepted exactly when positive, with the source's message otherwise |
| FameModels.ValidateFameCostUpdate | ADMIN_PANEL/backend/app/modules/fame/models.py:54-58 | absent, or accepted exactly when positive |
| FameModels.FameCostChecksAgree | ADMIN_PANEL/backend/app/modules/fame/models.py:28-58 | a given cost passes the update check exactly when it passes the create check, with the same message |
| FameModels.ValidateRewardName | ADMIN_PANEL/backend/app/modules/fame/models.py:34-40 | refused when blank once stripped or longer than 100 as sent, otherwise stripped |
| FameModels.RewardNameIdempotent | ADMIN_PANEL/backend/app/modules/fame/models.py:34-40 | a validated name validates again to itself |
| FameModels.ValidateReason | ADMIN_PANEL/backend/app/modules/fame/models.py:126-130 | refused when blank once stripped, otherwise stripped; no length limit |
| FameModels.NameIsAlsoReason | ADMIN_PANEL/backend/app/modules/fame/models.py:34-130 | a name the reward-name check accepts is accepted as a reason, with the same value |
| FameModels.ValidateAdjustments | ADMIN_PANEL/backend/app/modules/fame/models.py:136-142 | accepted exactly with 1 to 50 items, kept as sent |
| FameModels.BatchSplitsValid | ADMIN_PANEL/backend/app/modules/fame/models.py:136-142 | a valid batch split in two non-empty parts gives two valid batches |
| FameModels.NewRewardCreate | ADMIN_PANEL/backend/app/modules/fame/models.py:17-40 | accepted exactly when the name and the cost pass; otherwise every failure is reported, the name's before the cost's; an accepted body holds the stripped name and the fields as sent, with an omitted cooldown 0 |
| FameModels.NewRewardUpdate | ADMIN_PANEL/backend/app/modules/fame/models.py:42-58 | only the cost is checked; the name is taken as sent |
| FameModels.UpdateKeepsBlankName | ADMIN_PANEL/backend/app/modules/fame/models.py:42-58 | a blank name passes the update body though the create body refuses it |
| FameRoutes.Selected | ADMIN_PANEL/backend/app/modules/fame/routes.py:39-43 | exactly the guild's rewards, only the active ones when asked |
| FameRoutes.RewardBeforeTotal | ADMIN_PANEL/backend/app/modules/fame/routes.py:55 | of two rewards one comes first in the order by cost, then name |
| FameRoutes.SortRewards | ADMIN_PANEL/backend/app/modules/fame/routes.py:55 | the rows in order by cost, then name, as a permutation |
| FameRoutes.Listed | ADMIN_PANEL/backend/app/modules/fame/routes.py:53-55 | the selected rewards in catalogue order |
| FameRoutes.Offset | ADMIN_PANEL/backend/app/modules/fame/routes.py:51 | (page - 1) * page_size, never negative for page >= 1 |
| FameRoutes.GetFameRewards | ADMIN_PANEL/backend/app/modules/fame/routes.py:22-86 | 422 for a page below 1 or a size outside 1..100, 403 without access; otherwise the window at the page's offset and the count of selected rewards as total |
| FameRoutes.WindowIsSlice | ADMIN_PANEL/backend/app/modules/fame/routes.py:56 | a window is the contiguous slice at its offset |
| FameRoutes.PageSortedAndSelected | ADMIN_PANEL/backend/app/modules/fame/routes.py:39-58 | a page holds at most page_size rewards, each selected, in catalogue order |
| FameRoutes.EveryRewardOnItsPage | ADMIN_PANEL/backend/app/modules/fame/routes.py:51-58 | paging loses nothing: every catalogue position is on the page i div size + 1 at position i mod size |
| FameRoutes.IndexOf | ADMIN_PANEL/backend/app/modules/fame/routes.py:175-183 | the position of the row with that id in that guild |
| FameRoutes.Applied | ADMIN_PANEL/backend/app/modules/fame/routes.py:186-250 | each given field replaced, every other field and the guild kept |
| FameRoutes.Adjusted | ADMIN_PANEL/backend/app/modules/fame/routes.py:367-384 | fame moves by the amount but not below zero; a positive amount is added to earned, a negative one's size to spent; NULL totals read as 0 |
| FameRoutes.AdjustmentDrift | ADMIN_PANEL/backend/app/modules/fame/routes.py:368-381 | the totals follow the amount exactly, and fame drifts from them by the part of a deduction that could not be taken |
| FameRoutes.LedgerKeptUnlessClamped | ADMIN_PANEL/backend/app/modules/fame/routes.py:368-381 | a balance that agrees with its totals keeps agreeing unless a deduction is clamped |
| FameRoutes.DeductionsFloorAtZero | ADMIN_PANEL/backend/app/modules/fame/routes.py:368 | two deductions in a row never take more than the fame there was |
| FameRoutes.FameAdminStore.constructor | ADMIN_PANEL/backend/app/modules/fame/routes.py:1-20 | empty tables |
| FameRoutes.FameAdminStore.CreateFameReward | ADMIN_PANEL/backend/app/modules/fame/routes.py:88-159 | 403 without access, 400 for a name the guild already has; otherwise a new active row under the next id holding every field of the body, created and updated now, made by the caller |
| FameRoutes.FameAdminStore.UpdateFameReward | ADMIN_PANEL/backend/app/modules/fame/routes.py:161-257 | 403, then 404 for a reward not in the guild; an empty body writes nothing; otherwise the given fields are written, the new name unchecked |
| FameRoutes.FameAdminStore.DeleteFameReward | ADMIN_PANEL/backend/app/modules/fame/routes.py:259-287 | 403, 404 for a reward not in the guild; otherwise exactly that row is removed |
| FameRoutes.FameAdminStore.AdjustFamePoints | ADMIN_PANEL/backend/app/modules/fame/routes.py:343-400 | 403, 404 and nothing written without a user row in the guild; otherwise the user's columns adjusted, old and new fame returned |
| FameRoutes.IdsUnique | ADMIN_PANEL/backend/app/modules/fame/routes.py:88-159 | ids handed out in ascending order are unique, so a reward sits at one place |
| FameRoutes.DeleteFreesName | ADMIN_PANEL/backend/app/modules/fame/routes.py:101-110 | after a delete, creating a reward of the freed name is refused only when another row of the guild has it |
| SuperadminModels.ParsePlan | ADMIN_PANEL/backend/app/modules/superadmin/models.py:12-15 | the plan whose value is the text, None for any other |
| SuperadminModels.PlanRoundTrip | ADMIN_PANEL/backend/app/modules/superadmin/models.py:12-15 | a plan's value reads back as the same plan |
| SuperadminModels.PlansDifferFromBot | ADMIN_PANEL/backend/app/modules/superadmin/models.py:12-15 | "vip" has no row in the bot's plan table and the bot's "enterprise" is no plan here |
| SuperadminModels.ValidateGuildId | ADMIN_PANEL/backend/app/modules/superadmin/models.py:170-174 | refused when empty or shorter than 10, otherwise kept |
| SuperadminModels.NewServerOverride | ADMIN_PANEL/backend/app/modules/superadmin/models.py:164-174 | the guild id checked, an omitted duration one month |
| SuperadminModels.DefaultDurationsAgree | ADMIN_PANEL/backend/app/modules/superadmin/models.py:41-168 | an override and a subscription change built with the duration omitted agree on it |
| SuperadminModels.ValidateGuildIds | ADMIN_PANEL/backend/app/modules/superadmin/models.py:183-189 | accepted exactly with 1 to 50 ids, kept as sent |
| SuperadminModels.BulkIdsNotChecked | ADMIN_PANEL/backend/app/modules/superadmin/models.py:177-189 | a valid batch may hold an id the override check refuses |
| SuperadminModels.BatchOfFifty | ADMIN_PANEL/backend/app/modules/superadmin/models.py:183-189 | a batch over 50 splits into a valid prefix of 50 and a rest |
| UsersModels.ValidateDiscordUserId | ADMIN_PANEL/backend/app/modules/users/models.py:234-236 | true exactly for 17 to 20 characters, all digits |
| UsersModels.DiscordIdIsSnowflake | ADMIN_PANEL/backend/app/modules/users/models.py:234-236 | a valid Discord id also passes the panel's guild-id length check |
| UsersModels.LengthCheckIsWeaker | ADMIN_PANEL/backend/app/modules/users/models.py:106 | the UserCreate field bounds only the length, so it takes ids the validator refuses |
| UsersModels.ValidatePermissionName | ADMIN_PANEL/backend/app/modules/users/models.py:238-241 | exactly two '.'-separated parts, each alphabetic or holding '_' |
| UsersModels.PermissionNameOfParts | ADMIN_PANEL/backend/app/modules/users/models.py:238-241 | module.action is valid exactly when both dot-free halves are |
| UsersModels.PermissionNameHalves | ADMIN_PANEL/backend/app/modules/users/models.py:238-241 | every valid name is module.action with valid dot-free halves |
| UsersModels.NoDotRefused | ADMIN_PANEL/backend/app/modules/users/models.py:238-241 | a name without a dot is refused |
| UsersModels.TwoDotsRefused | ADMIN_PANEL/backend/app/modules/users/models.py:238-241 | a name with two dots is refused |
| UsersModels.AlphabeticNamePasses | ADMIN_PANEL/backend/app/modules/users/models.py:238-241 | two alphabetic halves pass |
| UsersModels.UnderscoreHalfPasses | ADMIN_PANEL/backend/app/modules/users/models.py:238-241 | a half with an underscore passes whatever else it holds |
| UsersModels.NewRoleCreate | ADMIN_PANEL/backend/app/modules/users/models.py:70-76 | each field's length and pattern checked, default colour and empty permission list when omitted |
| UsersModels.RoleNameAlphabet | ADMIN_PANEL/backend/app/modules/users/models.py:72 | an accepted role name holds no upper-case letter, digit or dot |
| UsersModels.EmailHasOneAt | ADMIN_PANEL/backend/app/modules/users/models.py:110 | an accepted email has exactly one '@' |
| UsersModels.NewUserCreate | ADMIN_PANEL/backend/app/modules/users/models.py:104-112 | each field's constraint checked |
| UsersModels.ParseAuditAction | ADMIN_PANEL/backend/app/modules/users/models.py:28-35 | a sent action is read as the enum member whose value it is |
| UsersModels.ActionTextRoundTrip | ADMIN_PANEL/backend/app/modules/users/models.py:28-35 | each of the seven actions is read back from its value |
| UsersModels.NewAuditLogFilter | ADMIN_PANEL/backend/app/modules/users/models.py:255-263 | accepted exactly when the action, if sent, is one of the seven enum values, the limit is at most 1000 and the offset not negative; then the action is that member, the limit 50 and the offset 0 when omitted, and the user and resource type as sent |
| UsersModels.AuditLimitUnboundedBelow | ADMIN_PANEL/backend/app/modules/users/models.py:262 | zero and negative limits are accepted |
| AuthUtils.HasPermission | ADMIN_PANEL/backend/app/auth/utils.py:201-205 | true exactly when the role is listed for the permission; an unknown permission lists nobody |
| AuthUtils.CanAccessModule | ADMIN_PANEL/backend/app/auth/utils.py:207-210 | the same answer as has_permission for the module name |
| AuthUtils.Level | ADMIN_PANEL/backend/app/auth/utils.py:181-187 | viewer 1, moderator 2, guild_admin 3, super_admin 4, anything else 0 |
| AuthUtils.LevelsDistinct | ADMIN_PANEL/backend/app/auth/utils.py:181-187 | the four roles have four different levels |
| AuthUtils.IsHigherRole | ADMIN_PANEL/backend/app/auth/utils.py:212-217 | role1's level strictly above role2's |
| AuthUtils.CanManageUser | ADMIN_PANEL/backend/app/auth/utils.py:219-221 | exactly when the admin's role is higher |
| AuthUtils.ManagementIsStrictOrder | ADMIN_PANEL/backend/app/auth/utils.py:212-221 | nobody manages their own role, never both ways, and it passes down the hierarchy |
| AuthUtils.SuperAdminManagesOthers | ADMIN_PANEL/backend/app/auth/utils.py:181-221 | a super admin manages every other and every unknown role but not another super admin; an unknown role manages nobody |
| AuthUtils.KnownRolesComparable | ADMIN_PANEL/backend/app/auth/utils.py:181-217 | any two different known roles are ordered one way or the other |
| AuthUtils.ModuleAccessTable | ADMIN_PANEL/backend/app/auth/utils.py:189-198 | user_management and bot_config only super_admin, mechanics_system moderators up, the other listed modules guild and super admins, a viewer nothing |
| AuthUtils.AccessUpwardClosed | ADMIN_PANEL/backend/app/auth/utils.py:189-205 | a role above one that may enter a module may enter it too |
| SuperadminModels.NewSubscriptionUpdate | ADMIN_PANEL/backend/app/modules/superadmin/models.py:41-45 | the fields as sent, an omitted duration one month |
| FrontendAuth.HasPermission | ADMIN_PANEL/frontend/src/api/auth.ts:125-127 | true exactly when the flag is present and true |
| FrontendAuth.CanAccessModule | ADMIN_PANEL/frontend/src/api/auth.ts:132-134 | true exactly when the module is listed |
| FrontendAuth.GetAccessibleGuilds | ADMIN_PANEL/frontend/src/api/auth.ts:139-141 | the profile's guilds, or none when the list is missing |
| FrontendAuth.HasGuildAccess | ADMIN_PANEL/frontend/src/api/auth.ts:146-148 | a super admin always, anyone else when the guild is listed; a missing list throws a TypeError unless super admin |
| FrontendAuth.ListedGuildsAccessible | ADMIN_PANEL/frontend/src/api/auth.ts:139-148 | every guild getAccessibleGuilds lists passes hasGuildAccess |
| FrontendAuth.ClientAgreesWithServer | ADMIN_PANEL/frontend/src/api/auth.ts:146-148 | with a guild list, access exactly when the server's guild check would not refuse with 403 |
| FrontendStore.ErrorText | ADMIN_PANEL/frontend/src/store/index.ts:62 | the message when it is not empty, else the fallback |
| FrontendStore.AuthStore.constructor | ADMIN_PANEL/frontend/src/store/index.ts:33-40 | signed out, not loading, no error, with the token kept in storage |
| FrontendStore.AuthStore.Login | ADMIN_PANEL/frontend/src/store/index.ts:42-66 | the token kept as soon as login answers; signed in when the permissions arrive too, else signed out with the message and the error thrown again |
| FrontendStore.AuthStore.Logout | ADMIN_PANEL/frontend/src/store/index.ts:68-86 | the server told when there is a token, the token dropped only when that call succeeds, signed out whatever happens |
| FrontendStore.AuthStore.LoadUser | ADMIN_PANEL/frontend/src/store/index.ts:88-120 | without a token only isAuthenticated cleared; otherwise profile and permissions fetched, a failure drops the token and signs out with the message |
| FrontendStore.AuthStore.ClearError | ADMIN_PANEL/frontend/src/store/index.ts:122-124 | only the error is cleared |
| FrontendStore.AuthStore.SetLoading | ADMIN_PANEL/frontend/src/store/index.ts:126-128 | only the loading flag changes |
| FrontendStore.AuthStore.HasPermission | ADMIN_PANEL/frontend/src/store/index.ts:131-134 | false without permissions, else the permission check |
| FrontendStore.AuthStore.CanAccessModule | ADMIN_PANEL/frontend/src/store/index.ts:136-139 | false without permissions, else the module check |
| FrontendStore.AuthStore.HasGuildAccess | ADMIN_PANEL/frontend/src/store/index.ts:141-144 | false without a profile, else the guild check |
| FrontendStore.SignedOutDeniesAll | ADMIN_PANEL/frontend/src/store/index.ts:131-144 | a signed-out store answers no to every helper |
| FrontendStore.Without | ADMIN_PANEL/frontend/src/store/index.ts:227-231 | the notifications of other ids, in their order, none of that id |
| FrontendStore.WithoutAppend | ADMIN_PANEL/frontend/src/store/index.ts:227-231 | removing distributes over concatenation, so kept notifications stay in order |
| FrontendStore.WithoutAbsent | ADMIN_PANEL/frontend/src/store/index.ts:227-231 | a list without that id is left as it is |
| FrontendStore.AddThenRemove | ADMIN_PANEL/frontend/src/store/index.ts:208-231 | removing a notification just added under a fresh id gives back the list before the add |
| FrontendStore.UIStore.constructor | ADMIN_PANEL/frontend/src/store/index.ts:188-194 | sidebar open, not collapsed, no notifications, not loading |
| FrontendStore.UIStore.ToggleSidebar | ADMIN_PANEL/frontend/src/store/index.ts:196-198 | the sidebar flag negated, nothing else changed |
| FrontendStore.UIStore.SetSidebarOpen | ADMIN_PANEL/frontend/src/store/index.ts:200-202 | the sidebar flag set, nothing else changed |
| FrontendStore.UIStore.ToggleSidebarCollapse | ADMIN_PANEL/frontend/src/store/index.ts:204-206 | the collapse flag negated, nothing else changed |
| FrontendStore.UIStore.AddNotification | ADMIN_PANEL/frontend/src/store/index.ts:208-225 | one entry with the given id and timestamp appended |
| FrontendStore.UIStore.RemoveNotification | ADMIN_PANEL/frontend/src/store/index.ts:227-231 | every entry of that id goes, the rest keep their order |
| FrontendStore.UIStore.ClearNotifications | ADMIN_PANEL/frontend/src/store/index.ts:233-235 | no notifications left, nothing else changed |
| FrontendStore.UIStore.SetGlobalLoading | ADMIN_PANEL/frontend/src/store/index.ts:237-239 | the loading flag set, nothing else changed |
| FamePointsApi.SeedRewards | ADMIN_PANEL/frontend/src/api/famePoints.ts:50-112 | six rewards with ids 1 to 6, all in guild 123456789 |
| FamePointsApi.OfGuild | ADMIN_PANEL/frontend/src/api/famePoints.ts:122 | exactly the rewards of the guild, in list order |
| FamePointsApi.MaxId | ADMIN_PANEL/frontend/src/api/famePoints.ts:138 | Math.max: -Infinity for no ids, otherwise an id at least every other |
| FamePointsApi.NextId | ADMIN_PANEL/frontend/src/api/famePoints.ts:138 | one more than the largest finite id and at least 1, so above every id |
| FamePointsApi.FindIndex | ADMIN_PANEL/frontend/src/api/famePoints.ts:159 | the first reward with that id (an integer or -Infinity) in that guild, or None when there is none |
| FamePointsApi.Merged | ADMIN_PANEL/frontend/src/api/famePoints.ts:161-165 | the sent fields replace the old ones, the others and the id kept |
| FamePointsApi.MockRewardStore.constructor | ADMIN_PANEL/frontend/src/api/famePoints.ts:47-113 | the list starts as the seeded rewards |
| FamePointsApi.MockRewardStore.GetRewards | ADMIN_PANEL/frontend/src/api/famePoints.ts:115-124 | exactly the guild's rewards, in list order |
| FamePointsApi.MockRewardStore.CreateRewardAsWritten | ADMIN_PANEL/frontend/src/api/famePoints.ts:130-150 | appends the reward under Math.max of the ids plus one, -Infinity once the list is empty |
| FamePointsApi.MockRewardStore.CreateReward | ADMIN_PANEL/frontend/src/api/famePoints.ts:130-150 | appends the reward under an id above every id in the list |
| FamePointsApi.MockRewardStore.UpdateReward | ADMIN_PANEL/frontend/src/api/famePoints.ts:152-170 | the first matching reward merged and stamped; with none, "Reward not found" and nothing changes |
| FamePointsApi.MockRewardStore.DeleteReward | ADMIN_PANEL/frontend/src/api/famePoints.ts:172-184 | the first matching reward spliced out; with none, nothing changes |
| FamePointsApi.CreatedIsListed | ADMIN_PANEL/frontend/src/api/famePoints.ts:115-150 | a reward just created is in its guild's list |
| FamePointsApi.CreatedIsFound | ADMIN_PANEL/frontend/src/api/famePoints.ts:138-180 | with the corrected id, the reward just created is the one update and delete find |
| FamePointsApi.EmptiedListHitsFirst | ADMIN_PANEL/frontend/src/api/famePoints.ts:138-180 | as written, after the list is emptied every new reward gets id -Infinity; updating or deleting it by that id finds the guild's first -Infinity reward, which is the new one only when it is the guild's first |
| FamePointsApi.AsWrittenAgreesWhileNonEmpty | ADMIN_PANEL/frontend/src/api/famePoints.ts:138 | while the list holds non-negative integer ids, the written and corrected ids agree |
| BotBridge.Encode | ADMIN_PANEL/backend/app/integrations/bot_bridge.py:186-194 | a bool before an int as "true"/"false", an int as its digits, a dict or list as JSON, anything else as its string, each with its type tag |
| BotBridge.Decode | ADMIN_PANEL/backend/app/integrations/bot_bridge.py:163-173 | JSON back to its document, an integer through int() (which may fail), a boolean as text equal to "true" in any case, other tags as their text |
| BotBridge.RoundTrip | ADMIN_PANEL/backend/app/integrations/bot_bridge.py:163-194 | a bool, int, JSON document or string written and read back is the same value |
| BotBridge.GuildConfig | ADMIN_PANEL/backend/app/integrations/bot_bridge.py:148-175 | every row of the guild decoded, keyed by setting name |
| BotBridge.WriteThenRead | ADMIN_PANEL/backend/app/integrations/bot_bridge.py:148-218 | after an update the other settings still decode and the new one reads back as written |
| BotBridge.TriggerId | ADMIN_PANEL/backend/app/integrations/bot_bridge.py:60 | "<guild>_<type>_<whole seconds>" |
| BotBridge.TriggerIdFixesSecond | ADMIN_PANEL/backend/app/integrations/bot_bridge.py:60 | for one guild and type, two triggers collide exactly when they fall in the same second |
| BotBridge.Bridge.constructor | ADMIN_PANEL/backend/app/integrations/bot_bridge.py:31-33 | empty tables |
| BotBridge.Bridge.TriggerBotReload | ADMIN_PANEL/backend/app/integrations/bot_bridge.py:35-73 | one unprocessed trigger under the id of this guild, type and second; an id already taken answers false and writes nothing |
| BotBridge.Bridge.GetGuildBotConfig | ADMIN_PANEL/backend/app/integrations/bot_bridge.py:148-179 | every setting of the guild decoded; when a row fails to decode the answer is empty |
| BotBridge.Bridge.UpdateGuildBotConfig | ADMIN_PANEL/backend/app/integrations/bot_bridge.py:181-222 | the setting replaced by its tagged text, then a CONFIG_RELOAD trigger with the key and text; the trigger's failure is ignored and the answer is true |
| TranslationManager.Member | translation_manager.py:121-122 | Some exactly when the object has the key, and then a value stored under it |
| TranslationManager.WalkAppend | translation_manager.py:118-126 | walking a path in two parts is walking the first, then the second from where it ends |
| TranslationManager.NestedValue | translation_manager.py:118-128 | the text at the end of the path, None when the path breaks or ends on a non-text |
| TranslationManager.GetNestedValue | translation_manager.py:118-128 | the key-by-key loop answers the nested value |
| TranslationManager.ResolveLanguage | translation_manager.py:81-86 | a supported language as asked, otherwise "es"; always a supported one |
| TranslationManager.Document | translation_manager.py:93 | the loaded document, or an empty object |
| TranslationManager.BraceAt | translation_manager.py:107 | the position of the first brace, with no brace before it |
| TranslationManager.Escape | translation_manager.py:107 | every brace doubled, never shorter |
| TranslationManager.FormatEscape | translation_manager.py:107 | formatting an escaped text gives the text back, whatever the arguments |
| TranslationManager.FormatPlain | translation_manager.py:107 | a text without braces formats to itself |
| TranslationManager.FormatField | translation_manager.py:105-110 | a named field between plain texts is replaced by its argument, and without it str.format fails with KeyError |
| TranslationManager.MemberLeaves | translation_manager.py:179-186 | a member's leaves are among its object's leaves |
| TranslationManager.FoundTextIsLeaf | translation_manager.py:118-186 | whenever a path finds a text, its document has at least one leaf |
| TranslationManager.CountNestedKeys | translation_manager.py:179-186 | the running count plus the number of leaves of the object |
| TranslationManager.FallbackTranslations | translation_manager.py:49-67 | "es" and "en" with their three common texts |
| TranslationManager.Translations.constructor | translation_manager.py:16-23 | nothing loaded, then load_all_translations |
| TranslationManager.Translations.LoadAllTranslations | translation_manager.py:25-47 | with no directory nothing changes; each language with a file gets its document; a file that fails to parse installs the fallback set |
| TranslationManager.Translations.ReloadTranslations | translation_manager.py:151-155 | everything dropped, then loaded again |
| TranslationManager.Translations.GetSupportedLanguages | translation_manager.py:157-159 | "es" and "en" |
| TranslationManager.Translations.IsLanguageSupported | translation_manager.py:161-163 | supported and loaded |
| TranslationManager.Translations.GetText | translation_manager.py:69-116 | the text in the resolved language, else Spanish, else the key path; with arguments formatted, the unformatted text on KeyError or ValueError |
| TranslationManager.LoadedLanguages | translation_manager.py:25-67 | both languages from a directory whose files parse, the fallback set after a bad file, nothing new without the directory |
| ShopConfig.Lookup | shop_config.py:271-272 | the entry under the key, when there is one |
| ShopConfig.GetPackById | shop_config.py:268-276 | the pack from the first tier holding the id, with its tier and id added; None when no tier holds it |
| ShopConfig.FoundInFirstTier | shop_config.py:270-275 | the pack comes from the first tier holding the id, as that tier lists it |
| ShopConfig.GetPacksByTier | shop_config.py:278-280 | the tier's packs, none for an unknown tier |
| ShopConfig.GetAvailablePacks | shop_config.py:282-286 | the tier's packs, whoever asks |
| ShopConfig.ByIdIsInItsTier | shop_config.py:268-280 | the pack found by id is the one its tier lists under that id |
| ShopConfig.InTierIsFoundById | shop_config.py:268-280 | a pack a tier lists is found by its id, with that tier, when no earlier tier holds the id |
| ShopConfig.LookupUnique | shop_config.py:271-272 | with distinct keys, the entry at a position is what a lookup of its key finds |
| ShopConfig.UnknownTierEmpty | shop_config.py:278-286 | an unknown tier has no packs, for anyone |
| ResetAlertsAdmin.ClockTextMeaning | reset_alerts_admin.py:100-103 | an accepted time names an hour below 24 and a minute below 60 |
| ResetAlertsAdmin.EveryClockTimeAccepted | reset_alerts_admin.py:100-103 | every time of day with two-digit hours and minutes is accepted |
| ResetAlertsAdmin.TrailingNewlineAccepted | reset_alerts_admin.py:100-103 | $ also lets a time followed by a newline through |
| ResetAlertsAdmin.AllParsed | reset_alerts_admin.py:105-112 | Some exactly when no item failed, with the values in order |
| ResetAlertsAdmin.StripTwice | reset_alerts_admin.py:107 | stripping before int() changes nothing |
| ResetAlertsAdmin.ParseDays | reset_alerts_admin.py:105-112 | the comma-separated days, each from 1 to 7, or refused |
| ResetAlertsAdmin.DaysOf | reset_alerts_admin.py:105-112 | the days of the items, each from 1 to 7, when all of them name one |
| ResetAlertsAdmin.ParseDaysMeaning | reset_alerts_admin.py:105-112 | accepted exactly when every item is an integer from 1 to 7, holding those days in the order typed |
| ResetAlertsAdmin.EmptyDaysRefused | reset_alerts_admin.py:105-112 | the empty day list is refused |
| ResetAlertsAdmin.Sorted | reset_alerts_admin.py:133-135 | sorted(): ascending with the same elements |
| ResetAlertsAdmin.AscendingUnique | reset_alerts_admin.py:133-135 | two ascending lists with the same elements are the same list |
| ResetAlertsAdmin.RenderIgnoresOrder | reset_alerts_admin.py:133-135 | the rendering does not depend on the order in which the days were typed |
| ResetAlertsAdmin.ListingAgreesWithAdding | reset_alerts_admin.py:233-241 | the listing renders a day list exactly when adding would accept it, and in the same way; anything else is shown as stored |
| ResetAlertsAdmin.AddResetSchedule | reset_alerts_admin.py:92-160 | the time, then the days, then the monitored server are checked; added exactly when all pass and the store succeeds (its outcome is a parameter), and the reply shows the days rendered |
| ResetAlertsAdmin.OfGuild | reset_alerts_admin.py:302-304 | exactly the guild's subscriptions, in order |
| ResetAlertsAdmin.CountsAddUp | reset_alerts_admin.py:321-400 | every subscription meets exactly one of the five outcomes, so the counts add up |
| ResetAlertsAdmin.TestResetAlert | reset_alerts_admin.py:280-420 | refused outside a guild or for an unmonitored server; otherwise each outcome counted, the counts add up to the subscribers, and all-clear exactly when every message went out |
| Rounding.RoundHalfEven | economic_calculator.py:32-34 | round(): an integer within 0.5 of the value, the even one on a tie |
| Rounding.RoundHalfEvenUnique | economic_calculator.py:32-34 | those two properties determine the rounding: any integer meeting them is it |
| Rounding.RoundHalfEvenOfInt | economic_calculator.py:81-82 | an integer rounds to itself |
| Rounding.RoundHalfEvenMonotone | economic_calculator.py:32-34 | rounding never reverses the order of two values |
| Rounding.Round1 | database_v2.py:507 | round(x, 1) lies within 0.05 of x |
| Rounding.Round2 | economic_calculator.py:32-34 | round(x, 2) lies within 0.005 of x |
| Rounding.Round2OfHundredths | economic_calculator.py:81-82 | a whole number of cents is unchanged by round(x, 2) |
| Rounding.Round2Monotone | economic_calculator.py:32-34 | round(x, 2) never reverses the order of two values |
| Rounding.Round1IsZero | database_v2.py:507 | a non-negative value rounds to 0.0 at one decimal exactly when it is at most 0.05 |
| Text.Strip | fame_rewards_system.py:427 | str.strip(): an infix of the input whose removed prefix and suffix are all whitespace (the characters str.isspace accepts) and whose own ends are not |
| Text.Split | fame_rewards_system.py:426 | str.split(sep): at least one piece, none holding the separator |
| Text.ZeroPad | core/user_manager.py:145 | the `:06d` format: digits whose value is the number, padded to the width unless already longer |

## Left out

- Discord views, buttons, modals, embeds, direct messages and slash-command plumbing are not modelled. Only the validation, threshold and record logic behind them is.
- SQL, aiosqlite and sqlite3: every table is an in-memory map or sequence. Connection handling, schema creation and migrations are not modelled. The exceptions that the source catches appear as an explicit failure parameter where a result depends on them.
- Concurrency: the `asyncio.Lock` in the rate limiters, the connection pool, `tasks.loop` background jobs and `async` ordering are not modelled. Each operation runs atomically.
- Wall clock, `uuid4`, `Math.random` and auto-increment ids are parameters of the operations that use them.
- Floating point: money, multipliers and timestamps are Dafny `real`. Python's `round(x, n)` is modelled on exact values (`Rounding`: the nearest multiple of 10^-n, ties to even) where the economy calculator and the usage check round; the binary representation that makes CPython round, say, 2.675 to 2.67 is not modelled. Rounding elsewhere in displayed text is not modelled.
- `calculate_distance` (ADMIN_PANEL/backend/app/modules/taxi/routes.py:27-31): `sqrt` is not computed. The distance is specified by the predicate `TaxiFareRoutes.IsDistanceKm`: it is non-negative and its square times 1000² equals the squared Euclidean distance. The fare lemmas hold for any value satisfying it.
- `get_zone_at_location`, `can_pickup_at` and `can_dropoff_at` in taxi_config.py: the nearest-zone search needs `sqrt`, so it is not part of this model. The `3333.33` divisor in `coords_to_grid_pad` is the exact decimal 3333.33 rather than its binary float.
- `_apply_server_config` in taxi_config.py mutates module constants from a database row and is not part of this model. The constants keep their defaults.
- Text: `upper` and `lower` are modelled on ASCII letters only. `str.isdigit` and `str.isalpha` accept ASCII digits and ASCII letters only, so a Unicode digit or letter is refused where Python accepts it. `int()` accepts an optional sign and decimal digits; its underscore and Unicode-digit forms are not modelled.
- String formatting: `strftime` and `isoformat` are not modelled. Translation formatting (`TranslationManager.Format`) handles named fields, positional fields (IndexError), doubled braces and unbalanced braces (ValueError). A field with a conversion, a format spec, an attribute or an index (`{x!r}`, `{x:>5}`, `{x.y}`, `{x[0]}`) is looked up as a whole name.
- JSON: a dict or list configuration value is kept as its JSON text (`BotBridge.ConfigValue.JsonV`). `json.dumps` and `json.loads` are not modelled, so the round trip for dicts and lists is stated on that text.
- The frontend API helpers' network paths (axios calls and their success responses) are not modelled. Only the mock fallbacks and the local predicates are. Neither are zustand persistence, the guilds fetch, nor the `setTimeout` auto-removal of notifications (ADMIN_PANEL/frontend/src/store/index.ts:219-224). Because persistence keeps only `user` and `isAuthenticated` (ADMIN_PANEL/frontend/src/store/index.ts:148-152), a reloaded page starts authenticated without permissions; `FrontendStore.AuthStore.Valid` describes the store between reloads only.
- JWT, bcrypt, sha256, the `DiscordAPI` client and the `require_permission` FastAPI dependency in ADMIN_PANEL/backend/app/auth/utils.py are not part of this model.
- The fame leaderboard endpoint (ADMIN_PANEL/backend/app/modules/fame/routes.py:289-341) and the audit, analytics and mock superadmin endpoints are not part of this model.
- The taxi cleanup and history helpers that swallow their exceptions, and the taxi slash commands that call undefined database methods (`get_user`, `get_user_balance`, `get_active_taxi_request`), are not part of this model.
- `subscription_manager.get_all_subscriptions` is not part of this model. It reads `row[15]` of an 11-column row, so it would fail on any subscription.
- The banking command handlers' database reads and embeds are not modelled. Only their validation chains, status bands, daily-claim gating and history totals are.
- BankingSystem.CheckTransfer, BankingSystem.TransferCheckOrder: the model states the whole chain `banco_transferir` is written to run. As written, the handler calls `taxi_db.get_user` (banking_system.py:304), which `TaxiDatabase` does not define. So once the self-transfer, positive-amount and one-million checks pass, the command raises AttributeError. The account and balance refusals and the transfer are never reached.
- BankingSystem.DailyReward, BankingSystem.OneClaimPerDate: the model states the gating the daily-reward button is written to apply. As written, the button calls `taxi_db.get_last_daily_claim` and `taxi_db.add_daily_reward` (banking_system.py:704 and :734), which `TaxiDatabase` does not define. So a registered user's claim raises AttributeError before the date check.
- BankingSystem.TotalIn, BankingSystem.TotalOut, BankingSystem.TotalsNet, BankingSystem.CreditsOnlyHaveNoOut: `banco_historial` calls the undefined `taxi_db.get_user` (banking_system.py:399) after the limit check. The totals at :436-437 are therefore never shown; the model states them as written.
- BankingSystem: the balance command `banco_balance` fails the same way at banking_system.py:201 and is not part of this model. The status bands are modelled from the balance button (banking_system.py:565-576), whose `get_user_by_discord_id` does exist.
- Shop packs carry name, money price, stock, category and restock days. Their descriptions, item lists, alternative prices and the tier table are not modelled.
- bot_bridge.py: `get_bot_status`, `get_pending_triggers`, `get_processed_triggers` and `cleanup_old_triggers` are not part of this model.
- translation_manager.py: reading the files from disk is not modelled; which files exist and what they parse to are parameters of `LoadAllTranslations` and `ReloadTranslations`. `get_language_options` and `get_stats` are not part of this model. Leaf counting is modelled by `CountNestedKeys`.
- reset_alerts_admin.py: the remove command, `taxi_db.add_reset_schedule` and `get_users_for_reset_alert` are not part of this model. The monitored-server list, whether the store succeeded, the subscriptions and the outcome of each test message are parameters.
- ticket_database.py: the ticket-channel and notification-configuration helpers are not part of this model. Only numbering, creation, closing, activity, stats and the panel message are.
- AdminBunkerRoutes.Selected, AdminBunkerRoutesSimple.Limited: rows the ORDER BY ties keep their table order, one of the orders SQLite allows. The text comparison of `expiry_time` with `datetime('now')` is modelled as a comparison of times with the `now` parameter.
- AdminBunkerRoutesSimple.GetBunkersOverview: `DATE()` is the day number of a time in seconds, so the local-time text format of the stored times is not modelled. The choice among sectors tied for most active is left open, as SQLite leaves it.
- UsersModels.NewAuditLogFilter: the `date_from` and `date_to` datetimes are not modelled, because datetime parsing is not part of this model.
- BotBridge.Decode: a row tagged json is always accepted. A row whose text `json.loads` rejects makes `get_guild_bot_config` answer an empty dict; this is not modelled, because the writer only stores `json.dumps` output.
- rate_limiter_disabled.py is a pass-through and is not part of this model.
- The rate-limit decorators are modelled by what they decide: whether the command runs and what is recorded. Python's function-wrapping mechanics are not modelled.
- EconomicOptimization.CalculateWithConfig: requires a positive daily reward. The `ZeroDivisionError` the source raises when every income is zero is not modelled.

## Findings

| source | as written | input that shows it | evidently intended | confidence | as-written member | corrected member |
|---|---|---|---|---|---|---|
| taxi_database.py:467-477 | `create_taxi_request` passes the zone dictionaries from `get_zone_at_location` to `validate_route`, which looks for airport, water and island names in its arguments | any plane (`avion`) request whose pickup and destination are both airports, for example "Aeropuerto Principal" to "Aeropuerto Norte" | validate the route on the zone names, so a plane between two airports is accepted | not executed | TaxiDatabase.PlaneRefusedOnZoneDicts | TaxiDatabase.PlaneAcceptedBetweenAirports, TaxiDatabase.TaxiStore.CreateTaxiRequest |
| ADMIN_PANEL/backend/app/modules/bunkers/routes.py:424-438 | every row of the page is built with `datetime.fromisoformat(registered_time)` and a required `registered_by` | a guild holding a bunker row that was never registered (as `add_server` creates them, with no registered time and no expiry, so the ORDER BY puts it last): the page that reaches it fails with 500 and the `unknown` status is never returned | build the row with optional registration fields, so unregistered bunkers are listed as `unknown` | not executed | AdminBunkerRoutes.GetBunkerRegistrations, AdminBunkerRoutes.UnregisteredRowBreaksPage | AdminBunkerRoutes.GetBunkerRegistrationsIntended, AdminBunkerRoutes.IntendedListsWholePage |
| ADMIN_PANEL/backend/app/modules/bunkers/routes_simple.py:361-369 | `registered_time` is passed unchanged into a required string field | a bunker created by the bot and never registered, whose `registered_time` is NULL: the listing fails with 500 | default the missing registration fields as the code already does for `expiry_time` and `registered_by` | not executed | AdminBunkerRoutesSimple.GetRegistrations, AdminBunkerRoutesSimple.UnregisteredRowBreaksListing | AdminBunkerRoutesSimple.GetRegistrationsIntended, AdminBunkerRoutesSimple.IntendedAgreesWhenRegistered |
| core/user_manager.py:454-480 | the receiver is checked with `get_user_by_id`, a LEFT JOIN that also finds users without a bank account, and the credit is an UPDATE of `bank_accounts` | a transfer to a registered user who has no `bank_accounts` row: the sender is debited, the credit updates no row, and the call reports success | refuse the transfer (or create the account) when the receiver has no account, so the total balance is conserved | not executed | UserManager.UserStore.TransferMoney, UserManager.TransferWithoutReceiverAccountLosesMoney | UserManager.UserStore.TransferMoneyIntended |
| fame_rewards_system.py:478-519 | `get_rewards_config` and `save_rewards_config` call `self.fame_db.get_rewards_config` and `save_rewards_config`, which the fame database class does not define; the AttributeError is caught | any save followed by a read for the same guild: the save answers False, the cache stays empty and the read answers the built-in rewards | a rewards table that the save writes and the read returns, with the cache in front of it | not executed | FameRewardsSystem.RewardsNeverSaved | FameRewardsSystem.RunIntended, FameRewardsSystem.SavedRewardsAreRead |
| ADMIN_PANEL/frontend/src/api/famePoints.ts:138 | the mock id is `Math.max(...ids) + 1` | delete every mock reward, then create two: both get id -Infinity, and editing or deleting the second (the page passes its id, -Infinity) changes the first | an id above every existing one even for an empty list (`Math.max(0, ...ids) + 1`) | not executed | FamePointsApi.MockRewardStore.CreateRewardAsWritten, FamePointsApi.EmptiedListHitsFirst | FamePointsApi.MockRewardStore.CreateReward, FamePointsApi.CreatedIsFound |

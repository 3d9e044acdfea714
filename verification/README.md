# Sesfikile backend: a verified model

A Dafny model of the backend of a minibus-taxi platform, with proofs of what its parts promise each other. It
covers the double-entry money ledger and the fuel books on top of it, route search, live vehicle telemetry,
boarding by signed pass or short code, and the import of the city's route catalogue.

`dafny verify dfyconfig.toml` verifies everything.

## How it is built

**Money** (`Ledger`, `FareSplits`, `Protocol`, `ProtocolSafety`, `LedgerTheorems`, `MoneyTotals`, `FuelChain`,
`FuelCalls`, `MoneyAnswers`, `Database`, `Analytics`). Balances are never stored; they are sums over signed postings. `Protocol` makes every
call (top-up, fare charge, transfer, allocation, quota funding, pump authorization and confirmation) a program of
database statements with a program counter, over shared committed tables. An event starts a call, advances one call
by one statement, or makes one fail; a run is any sequence of events, so all interleavings are covered. The only
coordination is the source's own: the unique idempotency key, claimed from the insert until commit or rollback, and
the `FOR UPDATE` row locks. Each statement reads the latest committed rows. A transaction's own rows are invisible
until it commits. Since no other lock is modelled, more interleavings are possible than PostgreSQL allows, and what
is proved of all of them holds of those it allows. The lemmas about one undisturbed call say that it gets through,
so they also ask that nobody holds a row its postings refer to, for which the foreign key would make it wait. `Database` is the same tables as fields of an object, with one
method per statement, each proved to be the corresponding step of the machine. `Serve` answers any schedule and
keeps the invariant. `MoneyAnswers` tells what the calls answer and do in accounts, columns and percentages, apart from
the definitions the machine is built of.

**Routes** (`Lists`, `Routing`, `Journeys`, `FirstFound`, `Reversal`). The nested-loop search is proved equal to a list of
candidates and a rule for choosing among them. `Journeys` declares what a journey is without mentioning the search
and proves the search sound, complete and optimal against that declaration: on any routes at all for journeys of
rides between last visits, and on repeat-free routes, where every ride is one, for all journeys. `FirstFound` proves
which of several equally cheap journeys it returns.

**Live vehicles** (`Telemetry`, `Convergence`, `LiveServer`). A change to the store and the publication of its news
are two separate steps of an actor; subscribing, taking the snapshot and delivering each event are steps of a
commuter's connection. A mailbox holds 32 events and loses what does not fit. `missed` in `Telemetry.Subscriber` is
bookkeeping of the model only. Changes to one vehicle may overlap; their news waits in the order the changes were
made. `Convergence` proves that a replica agrees with the store in every run that publishes the news of a vehicle in
that order and in which a driver's connection finds its vehicle on its own route (or offline), and gives runs from
the server's start in which breaking either condition leaves a replica stale for good.

**Boarding** (`PassCodes`, `RateLimiter`, `Boarding`, `ScanHandler`). `Boarding` composes the money machine, the
live store, the table of codes and the limiter: a scan is a sequence of steps whose charge is a money call of the
same number, and any other money statement, seat edit, lookup or clean-up may come in between. `ScanHandler` is
the handler itself, start to end, on the mutable objects.

**Catalogue** (`Medians`, `RouteNames`, `Catalogue`, `CatalogueRuns`). Import, clear, and all sequences of them. An
import is not one transaction, so it may stop at any statement; where it stops is an argument.

`Wrappers` and `Sums` (in `Sums.dfy`) hold the option type and sums over finite maps.

## Model

| member | source | states |
|---|---|---|
| Ledger.PlanEffect | backend/internal/wallet/repo.go:191-292 | the postings of any transaction sum to zero, and only the account that was locked and read can lose money (the funding source aside), by at most the amount read for |
| Ledger.LedgerSumsToZero | backend/migrations/000002_wallet_ledger_schema.up.sql:55-83 | a ledger of complete transactions sums to zero |
| Ledger.MoneyIsConserved | backend/migrations/000002_wallet_ledger_schema.up.sql:55-83 | minus the funding source's balance is the total of all other balances |
| FareSplits.SplitIsExact | backend/internal/wallet/repo.go:345-353 | shares are non-negative, add up to the fare, platform and driver lose less than a cent to rounding, and the owner gains less than two |
| FareSplits.SplitNeverNegativeIff | backend/internal/wallet/repo.go:345-353 | every fare splits into non-negative shares adding up to it exactly for non-negative percentages of at most 100 together |
| FareSplits.SplitFitsInt64 | backend/internal/wallet/repo.go:345-353 | no intermediate product overflows int64 while the fare is at most (2^63-1)/100 |
| FareSplits.PlatformShortfall | backend/internal/wallet/repo.go:345-353 | over n charges the platform falls short of its exact percentage by less than n cents |
| ProtocolSafety.ApplyKeepsInv | backend/internal/wallet/repo.go:111-292 | one statement of any call in any interleaving keeps the whole invariant: lock and key tables, solvent accounts, quotas equal to their log, and for a call past its check a balance still covering the debit |
| ProtocolSafety.WritingOk | backend/internal/wallet/repo.go:447-472 | while a call holds its key no other row has it, so the replay answer to a unique violation at commit is never needed |
| LedgerTheorems.NeverOverdrawn | backend/internal/wallet/repo.go:191-292 | in every reachable state of every interleaving no account but the funding source is negative |
| LedgerTheorems.LockedBalanceHoldsThroughout | backend/internal/wallet/repo.go:111-125 | while one call holds an account's row, no number of steps of others brings its balance below what was read, though top-ups lock nothing |
| LedgerTheorems.ChargedExactlyOnce | backend/internal/wallet/repo.go:142-178 | per idempotency key one committed transaction, one call that was not a replay, and the same transaction for every successful call |
| LedgerTheorems.FailureLeavesNoTrace | backend/internal/wallet/repo.go:387-472 | a call that ends in an error leaves postings and quotas unchanged, its locks released, and its key free for a later success |
| LedgerTheorems.ChargeAlone | backend/internal/wallet/repo.go:360-473 | a charge whose key and rows, those it locks and those it posts to, nobody holds replays a known key, refuses short funds without a trace, or adds exactly its four postings |
| LedgerTheorems.TopupAlone | backend/internal/wallet/repo.go:191-229 | a top-up locks nothing, and goes through adding exactly its two postings unless someone holds a row it posts to |
| LedgerTheorems.NegativeTopupOverdraws | backend/internal/wallet/repo.go:191-229 | the repository itself does not refuse a negative top-up, and one overdraws a wallet: the non-negative amounts assumed elsewhere are needed |
| MoneyAnswers.ChargeAnswers | backend/internal/wallet/repo.go:360-473 | a charge is refused without a key, then without a driver or owner, answered with its key's transaction if there is one, refused short of funds, and only then one more transaction of this commuter, vehicle and amount, split as below |
| MoneyAnswers.EveryFareIsSplit | backend/internal/wallet/repo.go:345-446 | in every interleaving a fare goes to the vehicle's own driver and owner: the platform and the driver get their configured percentages rounded down to the cent, the owner the rest, and no other account moves |
| MoneyAnswers.EveryTransferIsItsCall | backend/internal/wallet/repo.go:191-292 | in every interleaving a top-up or transfer moves what its call asked for between its two accounts, and no other |
| MoneyAnswers.TopupAnswers | backend/internal/wallet/repo.go:191-229 | a top-up takes the amount from the funding source, gives it to that commuter's wallet and touches no other balance |
| MoneyAnswers.AllocateAnswers | backend/internal/fuel/repo.go:48-72 | Allocate moves the percentage of the owner's revenue, truncated toward zero, to that owner's fuel account, or refuses when that is nothing or more than there is |
| MoneyTotals.BalancesExplained | backend/internal/fuel/repo.go:21-86 | a fuel balance is what its owner allocated; revenue is what was earned less what was allocated; wallets together are top-ups less fares |
| MoneyTotals.SpentWithinToppedUp | backend/internal/wallet/repo.go:191-292 | with no wallet overdrawn, all fares charged are within all top-ups |
| FuelChain.QuotaAgreesWithLog | backend/internal/fuel/viu_mock.go:41-157 | in every run a quota row's reserved and used cents are the sums over its reserved and its confirmed authorizations, and its available part is not negative |
| FuelChain.QuotaMovesForward | backend/internal/fuel/viu_mock.go:113-157 | no event lowers a quota or its used part, and a confirmation leaves the quota less reserved less used as it was |
| FuelChain.DebitedAtMostOnce | backend/internal/fuel/viu_mock.go:113-157 | however many confirmations of one authorization interleave, at most one debits |
| FuelChain.FuelBalanceGrows | backend/internal/fuel/repo.go:21-72 | fuel accounts never lose money, and gain it only when an allocation of the same owner commits |
| FuelChain.FuelCallsPostNothing | backend/internal/fuel/repo.go:99-165 | funding, authorizing and confirming never add a posting: only an allocation brings the fuel books into the ledger |
| FuelChain.ConfirmedIsUsed | backend/internal/analytics/repo.go:80-94 | confirmed fuel selected across an owner's authorizations equals the used cents of that owner's quota rows |
| FuelChain.FundingChain | backend/internal/fuel/repo.go:109-165 | per owner, in any run: confirmed fuel, then reserved plus used, then quotas; the fuel balance, which is all that was allocated, then the owner's share of fares; all owners' shares within all top-ups; and quotas within the fuel balance if no funding call overcommitted |
| FuelChain.BackedThroughoutIff | backend/internal/fuel/repo.go:128-158 | quotas stay within the fuel balance throughout a run exactly when no funding call commits that its own check, made at that moment, would refuse |
| FuelChain.SerialisedNeverOvercommits | backend/internal/fuel/repo.go:109-165 | funding calls of an owner that do not overlap never do that |
| FuelChain.RunConservesMoney | backend/internal/wallet/repo.go:188-292 | in every run every transaction and the ledger sum to zero, and the funding source mirrors everyone else |
| FuelChain.OverlappingFundingOverruns | backend/internal/fuel/repo.go:109-165 | whenever an owner has fuel money not yet earmarked, two overlapping funding calls earmark it twice |
| FuelCalls.OverrunIsReachable | backend/internal/fuel/repo.go:109-165 | such a state is reached from empty tables by a top-up, a fare, an allocation and two funding calls |
| FuelCalls.AuthorizeAlone | backend/internal/fuel/viu_mock.go:41-90 | an undisturbed AuthorizePump refuses, denies with what is available, or reserves exactly the amount and changes nothing else |
| MoneyAnswers.AuthorizeAnswers | backend/internal/fuel/viu_mock.go:41-90 | AuthorizePump grants exactly when reserved plus used plus the amount is within the quota and then raises only the reserved column; else it names the quota less what is reserved and used |
| FuelCalls.ConfirmAlone | backend/internal/fuel/viu_mock.go:113-157 | an undisturbed ConfirmPump reports an unknown or settled authorization without a change, or moves its cents from reserved to used |
| MoneyAnswers.ConfirmAnswers | backend/internal/fuel/viu_mock.go:113-157 | ConfirmPump moves the authorization's cents from the reserved column to the used one, once |
| FuelCalls.PumpRoundTrip | backend/internal/fuel/viu_mock.go:41-157 | authorize, confirm, confirm again: granted exactly when the amount fits beside what is reserved and used, else refused with the reason and no change; used once, and the second confirmation changes nothing and says so |
| FuelCalls.FundAlone | backend/internal/fuel/repo.go:109-165 | an undisturbed FundVehicleQuota earmarks exactly when vehicle and owner match and the quotas stay within the fuel balance |
| MoneyAnswers.FundAnswers | backend/internal/fuel/repo.go:99-165 | FundVehicleQuota refuses a bad amount, an unknown vehicle and another owner's, and grants exactly when the owner's quotas plus the amount are within the fuel account |
| FuelCalls.AllocateAlone | backend/internal/fuel/repo.go:48-72 | an Allocate whose rows nobody holds refuses an empty allocation and one larger than the revenue, else adds one transaction and nothing else |
| FuelCalls.AllocationMoves | backend/internal/wallet/repo.go:239-292 | that transaction moves the amount from revenue to fuel and changes no other balance |
| FuelChain.EarmarkEffect | backend/internal/fuel/repo.go:149-158 | an owner's earmarked total changes only when one of that owner's funding calls commits, and by its amount |
| MoneyDatabase.Database.AccountBalance | backend/internal/wallet/repo.go:118-125 | adds up the account's postings |
| MoneyDatabase.Database.EarmarkedTotal | backend/internal/fuel/repo.go:137-143 | adds up the quotas of the owner's vehicles |
| MoneyDatabase.Database.TryInsertTransaction | backend/internal/wallet/repo.go:144-163 | claims a free key, waits for an uncommitted one, and inserts nothing for a committed one |
| MoneyDatabase.Database.LockAccountRow | backend/internal/wallet/repo.go:111-116 | takes a free row lock and waits for a taken one |
| MoneyDatabase.Database.InsertPostingOrCommit | backend/internal/wallet/repo.go:447-472 | inserts the next posting of the plan; at the end commits them all at once |
| MoneyDatabase.Database.BeginAllocate | backend/internal/fuel/repo.go:48-72 | withholds the percentage of the revenue balance read without a lock, refusing when that comes to nothing |
| MoneyDatabase.Database.CompareEarmarks | backend/internal/fuel/repo.go:132-147 | refuses funding that would take the owner's quotas past the fuel balance read before |
| MoneyDatabase.Database.BeginAuthorize | backend/internal/fuel/viu_mock.go:41-67 | denies more than is available, telling what is, else locks the quota row |
| MoneyDatabase.Database.BeginConfirm | backend/internal/fuel/viu_mock.go:113-135 | locks a reserved authorization; answers a confirmed one as already settled |
| MoneyDatabase.Database.WriteOrCommitFuel | backend/internal/fuel/viu_mock.go:69-157 | makes reservation, debit or earmark visible together with the authorization's new status |
| MoneyDatabase.Database.Serve | backend/internal/wallet/repo.go:191-292 | serving any schedule of statements is the machine's run and keeps the books sound |
| MoneyDatabase.Database.ChargeFare | backend/internal/wallet/repo.go:360-473 | start to end with nobody else on its key or on a row it locks or posts to: refused, replayed, short of funds, or one transaction added and nothing else changed |
| Analytics.SummaryReconciles | backend/internal/analytics/repo.go:96-134 | revenue plus platform fees plus driver earnings is what the owner's fares in range charged, though one is scoped by account and two by metadata |
| Analytics.RangesAddUp | backend/internal/analytics/repo.go:38-64 | figures over adjacent ranges add up to the figures over both |
| Analytics.StatsForOwner | backend/internal/analytics/repo.go:142-207 | fills the result map row by row as the grouped query would |
| Analytics.StatsAreExact | backend/internal/analytics/repo.go:142-207 | a vehicle or driver appears exactly when it has fares from the start of the range to before its end, with their number and what they put on the owner's revenue or the driver's earnings account |
| Analytics.FareCounts | backend/internal/analytics/repo.go:38-134 | what each figure counts of one fare: the trip, the owner's, platform's and driver's shares, the fare itself |
| Analytics.StatsSumToSummary | backend/internal/analytics/repo.go:142-207 | per-vehicle and per-driver figures sum to the summary's trips, revenue and driver earnings |
| Analytics.RunIsWellFormed | backend/internal/wallet/repo.go:188-292 | the ledger of every run meets what the figures above assume of it |
| Routing.RouteStopOrder | backend/internal/routing/graph.go:27-41 | the stops walked, and where each comes last |
| Routing.PositionsSound | backend/internal/routing/graph.go:27-41 | a position is recorded exactly for stops on the route, and is that of the stop's last visit |
| Routing.DirectSegment | backend/internal/routing/graph.go:45-60 | the legs and fare between the two recorded positions, when they are in order |
| Routing.FareForSegment | backend/internal/routing/graph.go:67-73 | the fare of the direct ride, when there is one |
| Routing.Search | backend/internal/routing/graph.go:87-163 | the loops compute the best journey: a direct ride before a change, then the lower fare, then the first met |
| Routing.CheapestIsFirstMinimum | backend/internal/routing/graph.go:92-155 | the choice is the first candidate of least fare, so ties keep the order of the listed routes |
| FirstFound.FirstDirectRide | backend/internal/routing/graph.go:92-101 | of the direct rides the one found is on the first listed route of the lowest fare: every earlier route's is strictly dearer |
| FirstFound.FirstChange | backend/internal/routing/graph.go:103-155 | of the changes the one found is, among the cheapest, first in the order of first route, second route, stop of the first route |
| FirstFound.FareIsTheSum | backend/internal/routing/graph.go:45-60 | a segment's fare is the sum of its legs' fares |
| Journeys.SearchIsExact | backend/internal/routing/graph.go:75-163 | on any routes with distinct ids, loops and repeated stops included: found exactly when there is a journey of one or two rides between last visits, and no such journey has fewer rides, or as few and a lower fare |
| Journeys.RepeatFreeSearchIsExact | backend/internal/routing/graph.go:75-163 | on chained, repeat-free routes the same of all journeys of at most two rides, and the legs walk unbroken from origin to destination and cost the total |
| Journeys.FoundIsAWalk | backend/internal/routing/graph.go:118-163 | where routes are chained, repeated stops or not, the legs found walk unbroken from origin to destination and cost the total |
| Journeys.JourneyIsAWalk | backend/internal/routing/graph.go:75-163 | on chained routes any journey is one unbroken walk costing its segments' fares |
| Journeys.RideIsAdditive | backend/internal/routing/graph.go:118-121 | on any route fares add up, so skipping changes from a route to itself loses no journey |
| Journeys.SubRideIsNoDearer | backend/internal/routing/graph.go:45-60 | with non-negative leg fares no ride costs less than a ride inside it |
| Journeys.DirectMeansLastVisits | backend/internal/routing/graph.go:45-60 | on any route a ride is offered exactly when the last visit of the origin comes before the last visit of the destination |
| Journeys.CircularRouteIsMissed | backend/internal/routing/graph.go:36-38 | on a circular route the first leg is a ride that search does not find |
| Reversal.ReverseLegs | backend/internal/routing/seed_data.go:115-126 | writes the flipped legs back to front |
| Reversal.BuildSeedRoutes | backend/internal/routing/seed_data.go:132-139 | the corridors in order, then their return trips in order |
| Reversal.ReturnTripIs | backend/internal/routing/seed_data.go:115-139 | the return trip has its own name and each leg the other way at the same fare, last leg first |
| Reversal.DoubleReversal | backend/internal/routing/seed_data.go:115-126 | reversing twice restores the legs |
| Reversal.ReturnFare | backend/internal/routing/seed_data.go:110-126 | on any chained route the return trip charges the ride between the two stops' first visits |
| Reversal.RepeatedStopBreaksSymmetry | backend/internal/routing/seed_data.go:110-126 | on a route a, b, a, c the fares out and back between a and c agree only if the first two legs cost nothing |
| Reversal.FareSymmetric | backend/internal/routing/seed_data.go:110-126 | on a chained, repeat-free route the fare back is the fare out, and a ride exists back exactly when it does out |
| Reversal.SearchSymmetric | backend/internal/routing/graph.go:87-163 | where every route has its return trip, searching either way finds journeys with equal transfers and fare, or none |
| Reversal.SeededNetworkIsMirrored | backend/internal/routing/seed_data.go:132-139 | what seeding makes of chained, repeat-free corridors is such a network |
| Convergence.ReplicaConverges | backend/internal/telemetry/handlers.go:208-260 | in every orderly run, reading the rest of its mailbox and then the news on its way gives a commuter, of each vehicle whose last event was not dropped, the stored route, latitude, longitude, seats and time, and shows it exactly if it is on the route, even while changes overlap |
| Convergence.ReplicaIsTheRoute | apps/commuter/src/hooks/useRouteVehicles.ts:53-74 | with nothing lost, unread or unpublished, the replica shows the vehicles of the route and no others, each as stored |
| Convergence.StaleMeansOutOfOrder | backend/internal/telemetry/handlers.go:294-338 | a commuter who has read everything, lost nothing and still differs from the store is in a run with a step out of order |
| Convergence.PositionIsShown | backend/internal/telemetry/view.go:22-32 | a position a driver sends, once published and read, is the latitude and longitude the commuter sees, and nothing else changed but the time |
| Convergence.LostExactlyWhenFull | backend/internal/telemetry/hub.go:75-91 | a published event reaches every commuter of its route but those with 32 unread, and nobody else |
| Convergence.StepKeepsInv | backend/internal/telemetry/hub.go:52-91 | subscribing before the snapshot misses nothing and replaying what overlaps it does no harm; the last news of a vehicle on its way is always true |
| Convergence.OverlapGoesStale | backend/internal/telemetry/handlers.go:294-338 | two overlapping seat edits published out of order leave the commuter with the earlier one, though nothing was dropped |
| Convergence.SecondConnectionGoesStale | backend/internal/telemetry/handlers.go:143-148 | a second connection on another route leaves the vehicle on the first route's replicas |
| Convergence.StaleIsReachable | backend/internal/telemetry/handlers.go:143-338 | both happen in runs from the start of the server |
| Convergence.ChangesOnlyItsPart | backend/internal/telemetry/store.go:45-134 | a reconnect keeps the position and, as nearly as the new capacity allows, the seats; a position update moves only the position; a seat edit sets only the seats, to the possible number closest to the one asked for |
| Convergence.ComesOnlineEmpty | backend/internal/telemetry/store.go:45-69 | an untracked vehicle comes online with all seats free and no position, and nothing else brings it online |
| Convergence.SeatsClamped | backend/internal/telemetry/store.go:104-134 | a change leaves 0 <= available <= total exactly when the capacity it was put online with is not negative |
| Convergence.SeatsStayInRange | backend/internal/telemetry/store.go:45-134 | so seats stay in range over every run |
| LiveServer.VehicleStateStore.GoOnline | backend/internal/telemetry/store.go:45-69 | a tracked vehicle keeps its position and its seats, clamped to the new capacity |
| LiveServer.VehicleStateStore.GoOffline | backend/internal/telemetry/store.go:74-85 | offline is absent |
| LiveServer.VehicleStateStore.UpdatePosition | backend/internal/telemetry/store.go:89-102 | moves a tracked vehicle, ignores an untracked one |
| LiveServer.VehicleStateStore.AdjustSeats | backend/internal/telemetry/store.go:106-118 | applies the delta, clamped |
| LiveServer.VehicleStateStore.SetSeatsAbsolute | backend/internal/telemetry/store.go:122-134 | sets the seats, clamped |
| LiveServer.VehicleStateStore.ListByRoute | backend/internal/telemetry/store.go:146-157 | every vehicle of the route once, as stored, in no promised order |
| LiveServer.LoadSnapshot | apps/commuter/src/hooks/useRouteVehicles.ts:53-58 | the replica holds exactly the listed vehicles |
| LiveServer.Hub.Subscribe | backend/internal/telemetry/hub.go:52-62 | a new empty mailbox joins its route and no other |
| LiveServer.Hub.Unsubscribe | backend/internal/telemetry/hub.go:64-73 | the mailbox leaves, and a route nobody listens to is forgotten |
| LiveServer.Hub.Publish | backend/internal/telemetry/hub.go:79-91 | every mailbox of the route gets the event or, when full, loses it; no other mailbox changes |
| LiveServer.Handlers.OnDriverMessage | backend/internal/telemetry/handlers.go:175-192 | position before seats before delta, each changing only its part; then news of the vehicle as stored to the connection's route, if it was tracked |
| LiveServer.Handlers.OnDriverGone | backend/internal/telemetry/handlers.go:145-148 | off the store and an offline event to the connection's route, tracked or not |
| LiveServer.Handlers.OnCommuter | backend/internal/telemetry/handlers.go:225-234 | subscribed first; the replica then shows the vehicles of the route and no others, each as stored |
| RateLimiter.FilterInPlace | backend/internal/boarding/ratelimit.go:45-51 | filtering into the array being read keeps exactly the times after the cutoff, in order |
| RateLimiter.Append | backend/internal/boarding/ratelimit.go:58 | the time is appended in place while there is room and into a copy when there is not |
| RateLimiter.CodeRateLimiter.Allow | backend/internal/boarding/ratelimit.go:40-60 | admits when fewer than max times are left after pruning, records only admissions, and touches no other driver's times |
| RateLimiter.WindowNeverOverfull | backend/internal/boarding/ratelimit.go:40-60 | over any run with a clock that does not go back, no window (t - window, t] holds more than max admissions |
| RateLimiter.DeniedExactlyWhenFull | backend/internal/boarding/ratelimit.go:53-59 | an attempt is denied exactly when the window ending at it holds max admissions |
| RateLimiter.AdmittedExactlyWhen | backend/internal/boarding/ratelimit.go:40-60 | an attempt is let through exactly when fewer than max of the driver's attempts in the window before it were |
| RateLimiter.StoredIsTheWindow | backend/internal/boarding/ratelimit.go:44-59 | what is stored after an attempt is what the full history of admissions would give, never longer than max |
| PassCodes.NormalizeCode | backend/internal/boarding/code.go:41-51 | drops separators and upper-cases the rest, the long s to S included |
| PassCodes.NormalizesToCode | backend/internal/boarding/code.go:35-51 | a typed string normalizes to a code exactly when it is that code in any case, a long s for an S allowed, with separators anywhere |
| PassCodes.GenerateCode | backend/internal/boarding/code.go:23-33 | eight letters of the alphabet, one per random byte |
| PassCodes.CodeTellsItsBytes | backend/internal/boarding/code.go:23-33 | each letter's base-32 value is its byte modulo 32, so every letter stands for as many bytes as any other |
| PassCodes.CodeIsItsOwnVariant | backend/internal/boarding/code.go:23-51 | generated codes are unchanged by normalizing |
| PassCodes.PassStore.Store | backend/internal/boarding/passstore.go:76-83 | refuses a code already in the table and then changes nothing |
| PassCodes.PassStore.Lookup | backend/internal/boarding/passstore.go:106-127 | sweeps first, then reads the normalized code |
| PassCodes.PassStore.CleanupExpired | backend/internal/boarding/passstore.go:135-141 | deletes the rows past the grace and returns how many |
| PassCodes.SweepIsExact | backend/internal/boarding/passstore.go:135-141 | the rows left are exactly those not past the grace |
| PassCodes.PassStore.Issue | backend/internal/boarding/handlers.go:165-198 | stores the first free of at most five candidates, or nothing |
| PassCodes.IssuedIsFirstFree | backend/internal/boarding/handlers.go:165-198 | the code issued is the first of at most five that no stored pass has, and none only if all are taken |
| PassCodes.FoundByCode | backend/internal/boarding/passstore.go:106-127 | a stored pass is what its code finds, and a code nobody has finds nothing |
| PassCodes.RunKeepsCodesApart | backend/internal/boarding/passstore.go:71-83 | no two stored passes ever share a code |
| PassCodes.CodeLeadsToItsPass | backend/internal/boarding/passstore.go:48-127 | whatever was issued, looked up or cleaned up since, a variant of a pass's code leads back to it exactly until expiry plus the grace |
| PassCodes.IssuedCodeLeadsBack | backend/internal/boarding/passstore.go:71-127 | a pass just issued is what its code leads to, exactly until its own expiry plus ten minutes |
| BoardingSafety.OneFareOneSeat | backend/internal/boarding/handlers.go:310-332 | in every run each seat taken was paid for by its own pass, no nonce is charged twice and none takes two seats |
| BoardingSafety.ScanReachesCharge | backend/internal/boarding/handlers.go:280-310 | a scan gets as far as its charge exactly when the token is genuine and not past its expiry and the driver's own vehicle is online on the pass's route |
| BoardingSafety.TokenVerdict | backend/internal/boarding/handlers.go:280-291 | a forged token is refused as invalid, a genuine one past its expiry as expired |
| BoardingSafety.DriverVerdict | backend/internal/boarding/handlers.go:293-312 | no assignment, then not online on the pass's route, are the refusals; else the pass's fare is charged under its nonce on that vehicle |
| BoardingSafety.ChargeVerdict | backend/internal/boarding/handlers.go:313-346 | a failed charge refuses; a fresh one takes one seat, never below none, if the vehicle is tracked; a replay takes none |
| BoardingSafety.CodeVerdict | backend/internal/boarding/handlers.go:257-291 | an empty code is refused at no cost; ten admitted in the last minute shut the driver out; an admitted code fares as its row's token does |
| BoardingSafety.BoardedWasChecked | backend/internal/boarding/handlers.go:280-312 | in every run whoever boarded had shown that driver a genuine, unexpired pass, and then the driver's own vehicle was online on the pass's route |
| BoardingSafety.RefusedScanChangesNothing | backend/internal/boarding/handlers.go:245-322 | a scan that ends refused has put nothing in the ledger and taken no seat |
| BoardingSafety.SeatsMoveOnlyOnFreshCharge | backend/internal/boarding/handlers.go:324-332 | a scan changes the live store only when its charge ended fresh: one seat of its vehicle, clamped, and no other vehicle |
| BoardingSafety.SeatsStayInRange | backend/internal/telemetry/store.go:104-134 | scans, drivers coming and going and seat edits in any order keep seats within capacity |
| BoardingSafety.CodeScanIsTokenScan | backend/internal/boarding/handlers.go:262-308 | an admitted scan of a pass's code, however typed and whatever happened since issue, does what scanning its token does, until expiry plus the grace |
| BoardingSafety.PastGraceTheyPart | backend/internal/boarding/handlers.go:262-291 | after the grace the token is told it expired and the code is unknown, or another pass's |
| ScanHandler.Handlers.Resolve | backend/internal/boarding/handlers.go:257-278 | nothing sent is refused at no cost; a sent token is taken as it is; a code costs an attempt, and yields its pass's token or a refusal |
| ScanHandler.Handlers.Board | backend/internal/boarding/handlers.go:280-346 | the first condition that fails names the refusal; every refusal leaves ledger and seats alone; a fresh charge adds that pass's fare on the driver's vehicle, split as configured, takes one seat and tells the route's commuters; a replay does neither |
| Medians.MedianCoordinate | backend/internal/catalogue/geo.go:50-60 | the per-axis medians of the samples |
| Medians.MedianIsTheMiddle | backend/internal/catalogue/geo.go:63-72 | the middle value in any ascending order of the samples; of an even number, halfway between the middle two |
| Medians.CentreIsTheMiddle | backend/internal/catalogue/geo.go:50-60 | so on each axis, longitude and latitude |
| Medians.MedianIsRobust | backend/internal/catalogue/geo.go:63-72 | with more than half of the values in an interval the median is in it |
| Medians.CentreIsRobust | backend/internal/catalogue/geo.go:34-60 | the same for each axis of a rank's coordinate |
| Medians.PrepareRows | backend/internal/catalogue/import.go:151-182 | each rank's coordinate is the centre of all its endpoint samples in the whole file |
| Medians.RowSamplesAre | backend/internal/catalogue/import.go:163-174 | a row's first point is a sample of its origin, its last of its destination, and it has no other |
| Medians.CoordinatesAre | backend/internal/catalogue/import.go:159-182 | a rank has a coordinate exactly when a row with points starts or ends there: the centre of all its samples |
| Medians.CoordinatesIgnoreOrder | backend/internal/catalogue/import.go:151-182 | the coordinates are the same for any order of the rows |
| RouteNames.NameInjective | backend/internal/catalogue/import.go:184-194 | equal route names have equal OBJECTIDs, whatever the ranks are called |
| RouteNames.NameReadsBack | backend/internal/catalogue/import.go:184-194 | a name is origin, destination and OBJECTID in that order and form, and the number reads back |
| Catalogue.Repo.GetStopByName | backend/internal/routing/repo.go:65-78 | the first stop of the name, or none |
| Catalogue.Repo.GetRouteByName | backend/internal/routing/repo.go:187-200 | the first route of the name, or none |
| CatalogueRuns.FirstOfName | backend/internal/routing/repo.go:65-200 | a look-up by name finds the first row of that name, and none exactly when there is none |
| Catalogue.Repo.Import | backend/internal/catalogue/import.go:61-150 | the loop with its stop cache, run to the end or stopped at any statement, does what importing row by row from the tables does; it counts rows added and skipped, stops created and reused, and ranks seen |
| Catalogue.Repo.DeleteCatalogueData | backend/internal/routing/repo.go:258-296 | the four deletes leave exactly the seeded routes, their legs and geometries, and the stops that are seeded or still in use, and return how many rows each took |
| CatalogueRuns.ClearKeepsExactly | backend/internal/routing/repo.go:258-296 | a clear keeps exactly the seeded routes, the legs and geometries of no catalogue route, and the stops seeded or at an end of a leg that is left |
| CatalogueRuns.ImportOnlyAdds | backend/internal/catalogue/import.go:61-150 | no existing row is altered, and every added row is tagged as the catalogue's |
| CatalogueRuns.AttemptOnlyAdds | backend/internal/catalogue/import.go:94-146 | so it is however far an import gets |
| CatalogueRuns.ClearForgetsImport | backend/internal/routing/repo.go:258-296 | clearing after an import, complete or stopped anywhere, leaves what clearing before it would have |
| CatalogueRuns.RoundTrip | backend/internal/routing/repo.go:246-296 | from tables without catalogue rows, an import, complete or not, and a clear restore them exactly |
| CatalogueRuns.ClearRestores | backend/internal/routing/repo.go:246-296 | so does a clear after any sequence of imports, complete or not, and clears |
| CatalogueRuns.ReimportIsNoOp | backend/internal/catalogue/import.go:57-60 | importing a file again, or any of its rows in any order, changes nothing |
| CatalogueRuns.ResumesUnlessInsideRoute | backend/internal/catalogue/import.go:107-146 | importing the file again after a stop gives exactly the full import's tables, except when the stop came between a route's row and its leg or geometry: then they are missing for good |
| CatalogueRuns.StoppedRowsStops | backend/internal/catalogue/import.go:120-127 | which of a row's stops exist when the import stops in it |
| CatalogueRuns.StoppedRowsRoute | backend/internal/catalogue/import.go:129-143 | how much of its route exists then: nothing, its row, or its row and leg, and never its geometry |
| CatalogueRuns.EachRowItsOwnRoute | backend/internal/catalogue/import.go:107-146 | rows with distinct OBJECTIDs not imported before each get, in file order, their own route of their name and their own leg at their fare between the stops of their ranks, and their points |
| CatalogueRuns.StopsAreCentred | backend/internal/catalogue/import.go:88-104 | every stop an import creates stands at its rank's coordinate |
| CatalogueRuns.StopsAreNew | backend/internal/catalogue/import.go:75-105 | an import makes a stop only for a name that no stop has, before it or in it |
| CatalogueRuns.ImportedStopsAreCentred | backend/internal/catalogue/import.go:88-104 | and puts it at the median of its rank's samples over the whole file |
| CatalogueRuns.GeometriesHavePoints | backend/internal/catalogue/import.go:139-143 | only rows with points store a geometry |

## Where the code and its comments differ

The model follows the code.

- `backend/internal/boarding/ratelimit.go:10` calls the limiter a fixed-window counter; it keeps a sliding window.
- `backend/internal/boarding/passstore.go:107-110` says the sweep inside a lookup can never delete the row about to
  be looked up; for a row past its expiry by more than the grace it does, which is the second half of
  `PassCodes.CodeLeadsToItsPass`.

## Left out

- HTTP, JSON, websocket framing, deadlines and configuration: only the order of effects inside the handlers is kept.
- SQL, the driver and PostgreSQL's isolation beyond unique keys and explicit row locks. Rows are added in commit order. Foreign-key share locks are not modelled, which allows more interleavings.
- Signatures and random numbers: verification is a function given to the model, the random bytes of a code are an argument, and a fresh uuid is a number not used before. A ledger transaction bears the number of the call that commits it.
- Account creation: every account exists, and a missing one has an empty balance. Races to create one are not modelled, nor is connection loss during a commit.
- In `InternalTransfer` the unkeyed transaction row is inserted after the balance check; the model inserts it before the lock, where it is as invisible to everyone else.
- The balance that `Topup` and `FundVehicleQuota` read back after their commit, and the litres of a pump authorization.
- Vehicle owners, drivers and assignments are fixed for a run. A scanning account without a driver profile is refused like a driver without an assignment.
- int64 arithmetic other than the fare split's: amounts are unbounded integers.
- TopupAlone, ChargeAlone and AllocateAlone ask for more than the call's own locks: a row someone else holds `FOR UPDATE` would make a posting wait for its foreign key, and that wait is not modelled.
- NeverOverdrawn: assumes that top-ups and fares are not negative, as the handlers and the fare tables make them; NegativeTopupOverdraws shows the need.
- SearchIsExact: assumes distinct route ids, the primary key. DirectMeansLastVisits and CircularRouteIsMissed say which rides of a route with repeated stops are not offered.
- FareSymmetric: assumes chained routes without repeated stops; ReturnFare says what happens on every chained route.
- ReplicaConverges: says nothing about a vehicle whose last event was dropped, as the source promises nothing about it until the next one.
- The driver alert channel, heartbeats, and reconnection delays of the commuter app: a reconnection is a new subscription.
- The `Online` flag of a stored vehicle: it is always true in the store. Positions are exact numbers, and the time of the last update is an integer.
- NormalizeCode: upper-cases ASCII letters and the two others whose capital is an ASCII letter, long s and dotless i; the rest are left as they are, and no code has their capitals. Codes are strings of characters, not bytes.
- Times are integers, in seconds where a constant fixes the unit. A signed pass keeps finer time than its stored row; the model lets the two differ freely.
- The rate limiter's growth policy for its arrays is one of those Go allows.
- MedianCoordinate: computes on exact numbers where the source rounds, and takes sorting as given by its result.
- Normalize, the parsing of the file, `EstimateFareCents` and distances: rows arrive with canonical rank names and a fare.
- Import: the parse statistics are not modelled, nor is a route geometry meeting an existing one, which a new route cannot; of a stopped import only the rows handled and stops created are counted.
- DeleteCatalogueData: its deletes are one atomic step because they are one transaction.
- `created_at` columns and the order of unordered queries, apart from the first match of a name.
- The daily series and the ledger listing of analytics, stop requests, matching of stops, identity, and all screens.

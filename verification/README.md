# Verified model of the home energy controller

The firmware records what a house imports, generates, stores and uses, works out
where the energy came from and what it cost, and suggests when to run appliances.
This project states that logic in Dafny and proves what it promises: conservation
of energy and money, safety over every run of its protocols, agreement of caches
and buffers with the plain computation they stand for, optimality of the schedule
and of the fit, and exact conditions where a promise holds only sometimes.

`dafny verify dfyconfig.toml` checks everything.

## What is modelled

| file | part of the system |
|---|---|
| `Scheduler.dfy` | greedy placement of appliance runs on a day's surplus curve, both exchange sorts included |
| `DayInputs.dfy` | the minute files of a day gathered into series: grid, inverters, battery, state of charge, loads |
| `DaySplit.dfy`, `LedgerLaws.dfy`, `BatteryBalance.dfy`, `ChargeLaws.dfy` | the solar/grid split of each minute and the battery mixing ledger, in Wh and in charge units |
| `DayCost.dfy` | the priced import of a day shared over its consumers |
| `SplitCache.dfy` | day results cached on disk, chained day to day, rebuilt from a date |
| `Subscriptions.dfy`, `Strandings.dfy`, `Uninterrupted.dfy`, `Callbacks.dfy`, `SlotAccounts.dfy` | the subscription manager: worker, queue, attempt slots, node table and callbacks of another task |
| `SurplusModel.dfy` | the hourly regression of surplus on the solar forecast |
| `CycleDetector.dfy` | one-pass detection of appliance cycles |
| `Topology.dfy`, `DerivedFlows.dfy`, `WiringLoops.dfy`, `FlowBalance.dfy`, `SettlingGuard.dfy` | flows that no meter reads: sub-board totals, remainders, the unallocated load |
| `EndpointTree.dfy` | endpoint depths, parents and the search for a label |
| `PriceRecorder.dfy` | current prices stamped into 15-minute slots through a write-behind buffer |
| `Tariff.dfy` | a schedule resolved to slots, and recorded prices laid over it |
| `CommissioningWindow.dfy` | the handshake between a waiting caller and the callback of another task |
| `UriMatcher.dfy` | the greedy URI template matcher |
| `Options.dfy`, `Slots.dfy`, `Finite.dfy`, `Sums.dfy`, `CArithmetic.dfy` | shared vocabulary |

Code that changes state in place is a class or an array here, and its methods are
proved against functions of the old state; the laws are lemmas about those
functions. The two concurrent parts are step relations: one step is one section
under the mutex, one queue operation or one atomic exchange, and the theorems range
over every sequence of steps.

Numbers: C `float` and `double` are reals, C integers are unbounded, and division of
integers truncates as in C. A table on disk is a map; a missing file is a missing
key. Days are numbers and local time has a fixed offset that is a multiple of 15
minutes.

## Where a promise has a condition

- The chain behind the battery ledger looks back eight days. `LedgerBeforeExact`: for
  a given set of recorded and cached days it is right for every content of them
  exactly when one of those eight days is cached or has no grid file.
- A recompute that is refused for reaching too far back has dropped sixty days by then.
  What stays cached is right (`RefusedRecompute`), but a chain to a given day is right
  afterwards, for every content of the days, exactly when one of the eight days before it
  has no grid file, or is cached and not among the sixty (`RefusalExactly`). So a device
  with every past day cached, which served its last days rightly, serves them wrongly after
  such a refusal and caches them so (`RefusedThenWrong`).
- The split is meant never to overstate self-consumption, and can. On a day in Wh, for
  whatever the meters read, a minute credits and keeps no more solar energy than was
  held, made and charged exactly when it is `Backed` (`MinuteExact`,
  `MinuteOverstatesExactly`): what the house takes beside the grid, at the solar part of
  the inverter's output, is at most what was made beside the battery and what the ledger
  releases. Where the house takes just what the inverter gives, this is that the ledger
  covers the battery's output (`BackedWhenCovered`). A minute that only the loads' meters
  report credits sun that nobody made (`LoadsAloneOverstate`, and a day that begins so
  in `UnmeteredOverstates`); so does an output that the ledger does not cover
  (`UncoveredOverstates`), unless power is exported (`ExportMayBeBacked`). Over days
  whose minutes are backed, `SolarNeverOverstated` bounds all solar energy credited.
- A stamped price is visible exactly when it is not the "no price" sentinel or nothing
  lies beneath it (`StampSeenExactly`). A failed write of a day loses nothing exactly
  when each stamp was overtaken or already on file (`FailedWriteSeenExactly`).
- A call that opens a commissioning window gets its own answer, whatever happens,
  exactly when no abandoned request is outstanding as it arms the wait
  (`ArmingSafeExactly`; seen from before the call, `NextCallSafeExactly`). The theorems
  about the handshake assume just that. `MisreadReached` is a run from the start in which
  one call times out and the next is told the first one's result.
- The matcher means what its template means exactly for templates whose inner `*` are
  followed by `/` or by a final `*` (`MatcherExact`). Any other template it rejects on
  every URI (`GreedyRejectsAll`).
- Deriving the topology's flows twice is deriving them once on every wiring when no
  remainder leaves a sub-board (`DerivingSettles`). On every wiring, loops included, it is
  so exactly when the shifts that the remainders bring cancel on every fed board and leave
  its idle flag as it was (`SettlesByShift`); on freshly stamped edges the shifts are what
  boards draw beside the board's circuits (`SettlesWhenFresh`); and where boards only
  consume, and remainders leave them by their own handles, it is so exactly when nothing is
  drawn on any handle whose remainder leaves a fed board (`SettlesWhenConsuming`). It is not
  so in general: `MeterBesideBoardDrifts`, with a concrete wiring in `SampleFits`.
- A fed board's total is the load below it where no board hangs off itself
  (`TotalsAreLoads`). On any wiring it is what its circuits carry, with those nested boards
  that were totalled before it; a board in progress counts nothing (`TotalOnEveryWiring`).
- Behind a shared meter, feeds and remainder add up to the reading exactly when the
  edge's remainder is that handle's (`SharedHandleExactly`). An edge alone on two shared
  handles carries the remainder of the last one.
- An edge drawn the other way round has the same meter exactly when one of its ends is a
  power-out handle, and the same flow unless both ends are grid handles
  (`DrawnEitherWay`).
- The consumer unit balances exactly when the metered loads take no more than comes in
  (`ConsumerUnitBalances`).
- The search for an endpoint's label ends exactly when no climb from it comes to an
  endpoint twice (`EndsExactly`), which is so on every device whose parts have no cycle
  (`AcyclicNeverRevisits`, `ResolvedWalkable`). Otherwise it goes on for ever
  (`RevisitNeverEnds`); an unnamed endpoint that is its own part does so
  (`SelfPartNeverEnds`).
- When attempts may die silently, a waiting node is kept in every state of a run, that is
  being enqueued, in the queue, in the worker's hand or safe in a slot, exactly when every
  step of the run is `Safe` (`KeptExactly`; one step at a time, `StepExactly`). Two kinds of
  step may be unsafe, and are so exactly when neither the queue nor another hand keeps the
  node: a termination with a non-zero id that is not the node's current one, while the node
  waits; and a slot claimed for a waiting node while a callback has still to free one of it.
  Both occur: `StaleStrands` and `DisorderStrands` are runs from the start that strand a
  node by one of them alone. `NeverLost` names two simpler assumptions that are sufficient,
  and not necessary: no such claim at all, and no such termination of a node that holds a
  slot. What such a termination does in any state is `StaleTerminationExactly`.
- No attempt slot leaks as long as every attempt reports (`NoSlotLeaks`); the slot of one
  that dies is held until it expires, ninety seconds after it was taken, however often the
  tick counter wraps (`ExpiresExactly`).
- The sweep queues every wanted node that is neither sleepy, subscribed nor pending, unless
  the queue is full or the table has no room for it (`SweepPicksUp`).
- With distinct starts the order in which a tariff day lists its entries does not matter
  (`OrderDoesNotMatter`); with equal starts the first listed sets the price
  (`EqualStartsFollowListing`).

## Where code and comments disagree

- firmware/main/scheduler.c:94-95 and 135-137 say ties keep enumeration order. Exchange
  sorts swap distant elements, so ties may be reordered (`TiesReordered`,
  `UnplacedReordered`); the model keeps the code.
- The date check in front of the scheduler is described as accepting letters and
  underscores; the code accepts digits and `-` only, and so does `SafeDate`.

## Model

| member | source | states |
|---|---|---|
| Scheduler.SchedulerCompute | firmware/main/scheduler.c:52-147 | the whole schedule, from the appliances and the surplus file: refused exactly for a bad date or an absent or empty file; else the runs of the first appliances that are not excluded, each at its profile's power for its length rounded up to hours, placed in descending power times duration on the exported watts, and ordered as the exchange sorts leave them, ties included; recorded self-consumption is what the runs jointly draw and at least half of what any choice of starts could draw; rows beyond the count untouched |
| Scheduler.HalfOptimal | firmware/main/scheduler.c:94-133 | any balanced schedule of settled runs draws at least half of the best choice of one start per appliance |
| Scheduler.WorthSubadditive | firmware/main/scheduler.c:109-120 | what an alternative could still draw from the surplus left over is at most what the runs already booked |
| Scheduler.GreedyAccounted | firmware/main/scheduler.c:104-133 | no watt is booked twice: at every hour usage plus remainder is the positive surplus, the remainder never negative, after any number of placements in any order |
| Scheduler.PlaceKeepsBalance | firmware/main/scheduler.c:122-132 | one placement keeps that balance, only lowers the remainder, and settles the run it places |
| Scheduler.PlacedAtEarliestBest | firmware/main/scheduler.c:109-127 | each run ends with the earliest best window of the surplus its predecessors left, or none exactly when every window scored zero |
| Scheduler.BestStartUnique | firmware/main/scheduler.c:109-118 | the earliest best window is one window |
| Scheduler.BestAmongIsBest | firmware/main/scheduler.c:112-118 | the search after n starts holds the earliest best of them |
| Scheduler.ScheduleQuality | firmware/main/scheduler.c:104-147 | balance, half-optimality and valid starts survive any reordering of the placed runs |
| Scheduler.OrderByEnergy | firmware/main/scheduler.c:96-104 | every run with a duration once, larger energy first, ties as the exchange sort leaves them |
| Scheduler.OrderByStart | firmware/main/scheduler.c:135-145 | the exchange sort in place: a permutation of the runs in ascending start order, unplaced last |
| Scheduler.ExchangeSorts | firmware/main/scheduler.c:100-104 | after n passes the first n places are final and no element is lost, by any strict order |
| Scheduler.TiesReordered | firmware/main/scheduler.c:94-104 | two runs of equal energy are placed in reverse order when a larger one is behind them |
| Scheduler.UnplacedReordered | firmware/main/scheduler.c:135-145 | two unplaced runs come out in reverse order when a placed one is behind them |
| Scheduler.PlaceRuns | firmware/main/scheduler.c:106-133 | search and depletion loops in place compute the greedy placement |
| Scheduler.FindBestStart | firmware/main/scheduler.c:109-118 | the window search returns the earliest best window and its score |
| Scheduler.HoursOf | firmware/main/scheduler.c:84-86 | run length is minutes rounded up to hours, at least 1, and 24 beyond a day |
| Scheduler.FreshRunsAre | firmware/main/scheduler.c:70-92 | the runs are those of the first deferrable appliances, at most max, in order; power, rounded length and energy come from a usable profile, and are zero without one |
| Scheduler.PlacedByWork | firmware/main/scheduler.c:94-104 | they are placed in descending order of power times duration, each that has a duration once |
| Scheduler.OnlyPlaced | firmware/main/scheduler.c:122-132 | placing changes a run's start and recorded self-consumption and nothing else |
| DayInputs.LoadMinutes | firmware/main/node_power_logger.cpp:571-583 | every minute holds the last record that truncates to it, or the filler; nothing exactly without a file |
| DayInputs.LastIn | firmware/main/node_power_logger.cpp:576-580 | the last record of a minute, none after it |
| DayInputs.MinuteReached | firmware/main/node_power_logger.cpp:578 | a record reaches the minute its time lies in, and one from the last minute before midnight reaches minute 0 |
| DayInputs.ReadingByTime | firmware/main/node_power_logger.cpp:576-580 | by time of record: a minute reads the last one to reach it, or the filler if none does |
| DayInputs.GatherDay | firmware/main/node_power_logger.cpp:785-811 | inverter and battery series are the negated sums of what their streams' meters read, charge comes from the first battery that has a file, every other non-grid stream is a load; none exactly without a grid file |
| DayInputs.ChargeIsFirst | firmware/main/node_power_logger.cpp:800-803 | the state of charge is that of the first battery in the list with such a file, none exactly without one |
| DayInputs.LoadStreamsAre | firmware/main/node_power_logger.cpp:793-807 | the loads are the streams that are neither the grid's, solar nor battery, once each and in their order |
| DayInputs.LoadsListed | firmware/main/node_power_logger.cpp:793-807 | each with its stored readings |
| DayInputs.GatherCosts | firmware/main/node_power_logger.cpp:610-625 | the cost is computed from the same grid, solar and load series as the split |
| DaySplit.ComputeDaySplit | firmware/main/node_power_logger.cpp:785-916 | the day's per-load and unmonitored solar and grid energy, end ledger and hourly ledgers from the day's series and start ledger |
| DaySplit.RunDay | firmware/main/node_power_logger.cpp:785-916 | the specified split from empty accumulators |
| DaySplit.RunMinutes | firmware/main/node_power_logger.cpp:821-909 | the minute loop accumulates the specified split and ledger in place |
| LedgerLaws.BatterySound | firmware/main/node_power_logger.cpp:757-762 | in every minute of every day the ledger is unknown and empty, or holds energy with a solar fraction in [0, 1] |
| LedgerLaws.DaySound | firmware/main/node_power_logger.cpp:914-915 | a day begun with a sound ledger ends with one |
| SplitCache.FoldSound | firmware/main/node_power_logger.cpp:1009-1028 | the same over every chain of days, missing days included |
| SplitCache.LedgerBeforeSound | firmware/main/node_power_logger.cpp:1009-1028 | the chain stays sound from any cache of sound splits, stale ones included |
| LedgerLaws.AnchoredToReading | firmware/main/node_power_logger.cpp:866-893 | after a state-of-charge reading the ledger is unknown exactly at or below the reserve of 20, otherwise it holds exactly the reading less 20 |
| LedgerLaws.ChargeNeverReadAsWh | firmware/main/node_power_logger.cpp:817-818 | a ledger in charge units has no effect on a day in Wh |
| LedgerLaws.WhNeverReadAsCharge | firmware/main/node_power_logger.cpp:815-817 | Wh held at the start have no effect on a day with readings, from the first reading on |
| LedgerLaws.SolarNeverFalls | firmware/main/node_power_logger.cpp:857-906 | with no grid charging in the day the solar fraction never falls while the ledger stays known |
| LedgerLaws.RunsInLockStep | firmware/main/node_power_logger.cpp:817-901 | two runs that differ only in starting solar fraction agree on known, energy and pending charge in every minute |
| LedgerLaws.GapNeverGrows | firmware/main/node_power_logger.cpp:817-901 | their fractions keep their order and never draw apart, from any minute to any later one |
| LedgerLaws.RunsCoincideOnceEmpty | firmware/main/node_power_logger.cpp:869-872 | they coincide once the battery is at its reserve or drained |
| LedgerLaws.CreditsCoincideOnceEmpty | firmware/main/node_power_logger.cpp:845-855 | from then on every consumer is credited the same in both |
| LedgerLaws.SolarOrdered | firmware/main/node_power_logger.cpp:831-856 | the sunnier start credits every load and the remainder with at least as much solar energy |
| LedgerLaws.ShareInRange | firmware/main/node_power_logger.cpp:832-843 | the solar share of every minute lies in [0, 1] |
| LedgerLaws.LoadConserved | firmware/main/node_power_logger.cpp:845-851 | a load's solar and grid energy are non-negative and add up to its positive metered energy |
| LedgerLaws.RemainderConserved | firmware/main/node_power_logger.cpp:852-855 | so for the unmonitored remainder |
| LedgerLaws.HouseConserved | firmware/main/node_power_logger.cpp:826-856 | loads and remainder together are, minute by minute, what grid and inverter supplied, or what the loads' meters read if that is more |
| LedgerLaws.SameMix | firmware/main/node_power_logger.cpp:842-855 | all that draws in a minute takes the same mix of sun and grid |
| BatteryBalance.CreditedIsScaled | firmware/main/node_power_logger.cpp:831-843 | for every reading of every meter: the solar power credited is the sun at hand scaled by what the house takes beside the grid over what the inverter gives, or all the house takes beside the grid when the inverter gives nothing |
| BatteryBalance.SourcesExact | firmware/main/node_power_logger.cpp:831-843 | no more solar power is credited than there is exactly when the house takes no more beside the grid than the inverter gives, or there is none and none is credited; the two are equal when it takes just that |
| BatteryBalance.HeldBalances | firmware/main/node_power_logger.cpp:894-905 | on a day in Wh the energy held, and the solar part of it, changes by exactly what is charged and what is released |
| BatteryBalance.OutputCovered | firmware/main/node_power_logger.cpp:894-905 | the battery's output carries no more solar energy than its ledger releases exactly when the ledger covers it |
| BatteryBalance.MinuteExact | firmware/main/node_power_logger.cpp:831-905 | for every reading of every meter: a minute credits and keeps no more solar energy than was held, made and charged exactly when it is backed |
| BatteryBalance.BackedWhenCovered | firmware/main/node_power_logger.cpp:831-905 | which is that the ledger covers the battery's output where the house takes just what the inverter gives beside the grid, and follows from it where the house takes less |
| BatteryBalance.MinuteOverstatesExactly | firmware/main/node_power_logger.cpp:831-905 | the same of each minute of a day, in what its loads and remainder are credited |
| BatteryBalance.LoadsAloneOverstate | firmware/main/node_power_logger.cpp:831-843 | a minute that only the loads' meters report credits all of it as sun, with none made |
| BatteryBalance.UncoveredOverstates | firmware/main/node_power_logger.cpp:831-905 | readings with agreeing meters in which the ledger does not cover the output, and the minute is not backed |
| BatteryBalance.ExportMayBeBacked | firmware/main/node_power_logger.cpp:831-905 | readings with an uncovered output that is backed all the same, as power is exported |
| BatteryBalance.UnmeteredOverstates | firmware/main/node_power_logger.cpp:831-856 | a day that begins with such a minute credits solar energy nobody held or made |
| BatteryBalance.UnmeteredDayExists | firmware/main/node_power_logger.cpp:831-856 | there is such a day |
| BatteryBalance.ReadingMixes | firmware/main/node_power_logger.cpp:866-892 | after any reading: a rise adds charge of the recorded mix, or of the mix held without a record; a fall, and the first reading of a day entered with Wh, keep the mix; at the reserve nothing is left |
| ChargeLaws.ReadingLaw | firmware/main/node_power_logger.cpp:858-893 | every minute of a day with state-of-charge readings, by its series alone: a rise takes its mix from what the battery and inverter meters show since the last reading that moved the ledger, the part drawn from the AC side counting as grid; without such charge it keeps the mix |
| ChargeLaws.DayFollows | firmware/main/node_power_logger.cpp:818-893 | at every minute the ledger holds what the last reading says, and the charge recorded is what the meters show since the last reading that moved it; an unchanged reading keeps it |
| ChargeLaws.NextDay | firmware/main/node_power_logger.cpp:814-819 | what the next day makes of the ledger: charge units are dropped by a day in Wh, Wh go on in Wh, and a day with readings takes over the mix of Wh at once and of charge units up to its first reading |
| ChargeLaws.HourlyAt | firmware/main/node_power_logger.cpp:907-911 | the hourly ledgers are those of each hour's last minute, marked by the day's kind |
| BatteryBalance.SolarAddsUp | firmware/main/node_power_logger.cpp:845-855 | loads and remainder together are credited the house's solar share of every minute |
| BatteryBalance.SolarNeverOverstated | firmware/main/node_power_logger.cpp:741-756 | over any part of a day in Wh whose minutes are backed, solar energy credited plus still held is at most what was held at the start, made beside the battery and charged into it |
| DayCost.ComputeDayCost | firmware/main/node_power_logger.cpp:599-663 | every load's cost, and the unmonitored cost as the priced import less all of them; none exactly without tariff or grid data |
| DayCost.CostConserved | firmware/main/node_power_logger.cpp:628-661 | per-load costs and unmonitored cost add up to the priced import |
| DayCost.MinuteConserved | firmware/main/node_power_logger.cpp:628-656 | so in each minute, disagreeing meters and zero totals included |
| DayCost.CostsNonNegative | firmware/main/node_power_logger.cpp:628-656 | with non-negative prices nobody's cost is negative |
| DayCost.BilledBySlot | firmware/main/node_power_logger.cpp:631-641 | the import cost is the energy imported within each quarter of an hour by the clock, at that quarter's price, those without a price free |
| DayCost.PaidInProportion | firmware/main/node_power_logger.cpp:643-655 | a load pays of a minute's cost in the proportion of what it draws to what the house takes |
| SplitCache.LedgerBeforeIsFold | firmware/main/node_power_logger.cpp:1009-1028 | with an anchor in reach the cached chain returns the ledger of the uncached fold, keeps the cache coherent and adds earlier days only |
| SplitCache.LedgerBeforeExact | firmware/main/node_power_logger.cpp:1009-1028 | it does so for every content of a set of days exactly when one of the eight days before is cached or has no grid file |
| SplitCache.ChainTooShort | firmware/main/node_power_logger.cpp:1009-1016 | otherwise there are contents for which the chain misses the fold |
| SplitCache.RunDaysTrue | firmware/main/node_power_logger.cpp:1084-1139 | every day of a served chain is the fold's day and is cached so |
| SplitCache.SplitDaysTrue | firmware/main/node_power_logger.cpp:1124-1139 | the daily-energy pass returns the true split of each day and caches every past recorded one |
| SplitCache.RecomputeRestores | firmware/main/node_power_logger.cpp:1347-1388 | rebuilding from a date makes the cache coherent whatever the dropped days held, and counts the days rebuilt |
| SplitCache.PresentDaysAre | firmware/main/node_power_logger.cpp:1377-1388 | the days counted as rebuilt are the recorded ones of the span |
| SplitCache.RefusedRecompute | firmware/main/node_power_logger.cpp:1347-1388 | a rebuild refused for being too far back returns -1 and has dropped exactly the cached days among sixty; those left agree with the fold |
| SplitCache.RefusalExactly | firmware/main/node_power_logger.cpp:1355-1370 | after a refusal the chain to a day is right, for every content of the recorded and cached days, exactly when one of the eight days before it has no grid file or is cached and not among the sixty dropped |
| SplitCache.RefusalServesWrong | firmware/main/node_power_logger.cpp:1355-1370 | where none is, there are contents for which a daily-energy request beginning on that day is answered wrongly and caches a wrong split |
| SplitCache.RefusedThenWrong | firmware/main/node_power_logger.cpp:1355-1370 | a device with all its past days cached, ready to serve its last days, that answers wrongly after a refused rebuild |
| SplitCache.StepFaithful | firmware/main/node_power_logger.cpp:996-1139 | every operation whose first day is anchored answers as if there were no cache and leaves it coherent |
| SplitCache.CacheInvisible | firmware/main/node_power_logger.cpp:996-1139 | over every sequence of midnight, battery-source, daily-energy and rebuild calls the replies are those without a cache, so their order does not matter |
| SplitCache.MidnightAnchors | firmware/main/node_power_logger.cpp:1030-1034 | a midnight split anchors the following eight days, whatever they record |
| SplitCache.FoldIgnoresLater | firmware/main/node_power_logger.cpp:1009-1028 | the fold up to a day does not depend on later days |
| SplitCache.Card.LedgerBeforeDay | firmware/main/node_power_logger.cpp:1009-1028 | the recursive chain on disk computes the specified ledger and cache |
| SplitCache.Card.SplitDayCached | firmware/main/node_power_logger.cpp:1030-1034 | card after the midnight split |
| SplitCache.Card.BatterySourceSplit | firmware/main/node_power_logger.cpp:1036-1060 | reply and card of the battery-source request |
| SplitCache.Card.DailyEnergySplits | firmware/main/node_power_logger.cpp:1062-1152 | reply and cache of the daily-energy request |
| SplitCache.Card.RecomputeFromDate | firmware/main/node_power_logger.cpp:1347-1388 | reply and cache of the rebuild request |
| Subscriptions.NeverStranded | firmware/main/managers/subscription_manager.cpp:116-133 | in every state any interleaving reaches, when every attempt reports, a node pending and not subscribed is being enqueued, queued, in the worker's hand or has an unreported attempt; the others are the sweep's (`Uninterrupted.SweepPicksUp`) |
| Subscriptions.KeptExactly | firmware/main/managers/subscription_manager.cpp:218-324 | if attempts may die silently, in every interleaving: each waiting node is in each state being enqueued, queued, in the worker's hand or in a slot nobody is about to free, exactly when every step is safe |
| Subscriptions.StepExactly | firmware/main/managers/subscription_manager.cpp:218-324 | from a state with no node lost a step loses none exactly when a termination that is not current, or a slot claimed ahead of a pending release, concerns no waiting node but one kept by the queue or another hand |
| Subscriptions.NeverLost | firmware/main/managers/subscription_manager.cpp:218-293 | two simpler sufficient assumptions: no slot is claimed for a node while a callback has still to free one of it, and no stale termination reaches a node waiting on a slot |
| Strandings.StaleTerminationExactly | firmware/main/managers/subscription_manager.cpp:309-324 | in any state: once a termination that is not current has run, the node is kept exactly by a queue entry, by being handed on, or by a second slot nobody is about to free |
| Strandings.StaleStrands | firmware/main/managers/subscription_manager.cpp:309-368 | a run from the start with every claim in order, in which a check-in replaces a subscription and its late termination strands the node |
| Strandings.DisorderStrands | firmware/main/managers/subscription_manager.cpp:238-324 | a run from the start with every termination timely, in which a slot claimed between the two parts of a termination strands the node |
| Uninterrupted.SweepPicksUp | firmware/main/managers/subscription_manager.cpp:484-504 | a sweep of an idle task, run to its end by its own steps in any state: the queue grows by exactly the wanted nodes that are in the table or fit, not sleepy, subscribed or pending, each once and while there is room; afterwards each wanted node that is not sleepy is subscribed, pending, dropped with the queue full, or found no place in the table |
| Uninterrupted.SweepForUnsubscribed | firmware/main/managers/subscription_manager.cpp:484-504 | the sweep's loop on the tables leaves just that |
| Uninterrupted.EnqueueSubscription | firmware/main/managers/subscription_manager.cpp:565-607 | a request on the tables: a pending node, or one without a place, is left alone; another is marked and queued, or left unmarked when the queue is full |
| Callbacks.RequestLeaves | firmware/main/managers/subscription_manager.cpp:565-607 | a request run to its end, in any state |
| Callbacks.EstablishedLeaves | firmware/main/managers/subscription_manager.cpp:299-307 | an established attempt: the node is subscribed under the id, its first slot free |
| Callbacks.TerminatedLeaves | firmware/main/managers/subscription_manager.cpp:309-324 | a termination: a slot is freed, and a node of which it is the current subscription, or any by id 0, is unsubscribed and queued anew |
| Callbacks.FailedLeaves | firmware/main/managers/subscription_manager.cpp:326-346 | a failure: the slot is freed, the node unmarked, and queued anew exactly unless it is found sleepy |
| Callbacks.CheckInLeaves | firmware/main/managers/subscription_manager.cpp:348-371 | a check-in: whatever was believed, the node is unsubscribed and queued |
| Callbacks.SentLeaves | firmware/main/managers/subscription_manager.cpp:377-475 | an attempt that is sent is out, its node's flag refreshed, nothing else |
| Callbacks.UnsentLeaves | firmware/main/managers/subscription_manager.cpp:377-482 | one that cannot be sent frees its slot and leaves its node unmarked |
| Callbacks.DropsHead | firmware/main/managers/subscription_manager.cpp:524-547 | the worker takes the head of the queue, unmarks it when no longer wanted, and leaves it when it is subscribed |
| Callbacks.TakesHead | firmware/main/managers/subscription_manager.cpp:524-551 | any other head waits for a slot |
| Callbacks.ClaimLeaves | firmware/main/managers/subscription_manager.cpp:238-272 | with a free slot the first one is taken and the attempt scheduled, or given back with the node unmarked |
| Callbacks.WaitsOn | firmware/main/managers/subscription_manager.cpp:238-272 | without one, and none expired, a round changes nothing |
| SlotAccounts.NoSlotLeaks | firmware/main/managers/subscription_manager.cpp:274-293 | in every interleaving in which attempts report, a node holds no more slots than attempts on their way and releases due; when all is quiet none is held |
| Subscriptions.ExpiresExactly | firmware/main/managers/subscription_manager.cpp:218-226 | a slot expires exactly after ninety seconds, whether or not the tick counter wraps |
| Subscriptions.StepPassesOn | firmware/main/managers/subscription_manager.cpp:299-368 | no single step drops a waiting node it has in hand, and none makes a node wait without enqueuing it |
| Subscriptions.StepShelters | firmware/main/managers/subscription_manager.cpp:506-604 | what each step leaves of a waiting node's queue entry or slot |
| Subscriptions.ReclaimedIsSteps | firmware/main/managers/subscription_manager.cpp:218-236 | reclaiming all expired slots under the mutex is the same as reclaiming them one by one |
| Subscriptions.Manager.FindOrCreate | firmware/main/managers/subscription_manager.cpp:80-95 | the slot table refines a map of at most 32 nodes: found, created, or full exactly when 32 others are there |
| Subscriptions.Manager.MarkHasNoSubscription | firmware/main/managers/subscription_manager.cpp:116-133 | a termination clears the node exactly when its id is zero or current, and then asks for a new subscription |
| Subscriptions.Manager.MarkHasSubscription | firmware/main/managers/subscription_manager.cpp:97-110 | the node, created if there is room, is subscribed under the id and no longer pending |
| Subscriptions.Manager.RefreshIcdFlag | firmware/main/managers/subscription_manager.cpp:162-174 | the node, created if there is room, is flagged |
| Subscriptions.Manager.MarkPending | firmware/main/managers/subscription_manager.cpp:565-596 | the node is marked pending, and is to be queued exactly if it is in the table and was not pending |
| Subscriptions.Manager.QueueSend | firmware/main/managers/subscription_manager.cpp:597-606 | the node is queued, or cleared exactly when the queue is full |
| Subscriptions.Manager.TryClaimSlot | firmware/main/managers/subscription_manager.cpp:238-272 | one round: reclaim, then take the first free slot if any |
| Subscriptions.Manager.AttemptFinished | firmware/main/managers/subscription_manager.cpp:274-293 | frees the first slot of the node and changes nothing else |
| Subscriptions.Manager.ReclaimExpiredSlots | firmware/main/managers/subscription_manager.cpp:218-236 | every expired slot is freed and its node cleared |
| SurplusModel.Train | firmware/main/surplus_model.c:58-156 | from the window's files: slope of every hour, weekday intercepts and sample counts; each weekday's intercept is the best for its own samples by squared error, and where it has none the best for all samples of the hour, or 0 without any |
| SurplusModel.WeekdayIntercept | firmware/main/surplus_model.c:137-153 | so for any fit: least squares over the weekday's samples, or over the hour's where the weekday has none |
| SurplusModel.SamplesListed | firmware/main/surplus_model.c:85-115 | an hour's samples are those of the days with both files and a grid record of it, in order: forecast, 0 where missing, against what was exported |
| SurplusModel.UsableCounted | firmware/main/surplus_model.c:103-119 | the usable days are those that teach some hour |
| SurplusModel.FitsExactly | firmware/main/surplus_model.c:125-136 | a slope is fitted exactly to at least four days whose mean squared distance from the mean forecast exceeds that of 10 W |
| SurplusModel.FitIsLeastSquares | firmware/main/surplus_model.c:125-156 | weekday intercepts do at least as well as the hour-wide one, which does at least as well as every line where a slope is fitted and as every constant where not |
| SurplusModel.LineOptimal | firmware/main/surplus_model.c:125-143 | where the guards pass, the closed form beats every other line |
| SurplusModel.InterceptOptimal | firmware/main/surplus_model.c:137-143 | for its slope the mean residual beats every other intercept |
| SurplusModel.DayInterceptsOptimal | firmware/main/surplus_model.c:144-156 | for the stored slope the weekday intercepts beat every other choice of seven |
| SurplusModel.DenominatorPositive | firmware/main/surplus_model.c:125-136 | the denominator is positive whenever it divides |
| SurplusModel.MovedLine | firmware/main/surplus_model.c:109-136 | how the squared error changes when the line moves |
| CycleDetector.ScanDay | firmware/main/appliance_profile.c:109-162 | one pass records exactly the cycles of the definition, in order, with exact sum and length including tolerated gaps; missing files record nothing |
| CycleDetector.CyclesUnique | firmware/main/appliance_profile.c:126-159 | the declarative definition picks out one list of cycles |
| CycleDetector.CyclesAreAll | firmware/main/appliance_profile.c:126-159 | and there always is one |
| CycleDetector.LongOnesCounted | firmware/main/appliance_profile.c:91-104 | exactly the cycles of at least five minutes are counted |
| CycleDetector.EndsCycle | firmware/main/appliance_profile.c:146-159 | at the sixth low reading, or at the end of the data, the cycle is what was summed up |
| CycleDetector.ToleratesGap | firmware/main/appliance_profile.c:145-155 | up to five low readings are held back, not counted |
| CycleDetector.ThresholdsOf | firmware/main/appliance_profile.c:207-211 | the on-threshold is three tenths of the way from standby to peak in whole milliwatts, or 30 W above standby if that is more, and exceeds the off-threshold, standby plus 15 W, by at least 15 W |
| CycleDetector.StatsAreMoments | firmware/main/appliance_profile.c:91-104 | what is recorded are the count, sums and sums of squares of mean power and of length over the cycles that are long enough |
| CycleDetector.SpreadKept | firmware/main/appliance_profile.c:229-237 | whatever is recorded, on however many days, the variances the profile takes from the sums are not negative |
| Topology.BoardTotals.TotalFor | firmware/html_app/src/Topology.tsx:473-492 | the memoised recursion returns on every wiring, loops included, and leaves the table as specified |
| Topology.SelfFedBoard | firmware/html_app/src/Topology.tsx:473-492 | a board that feeds nothing but itself carries nothing |
| Topology.TotalBalanced | firmware/html_app/src/Topology.tsx:473-492 | on loop-free wiring it keeps every total in the table equal to what the board's circuits carry |
| Topology.BalanceUnique | firmware/html_app/src/Topology.tsx:454-460 | there is only one way to balance loop-free wiring |
| Topology.TotalByRoutes | firmware/html_app/src/Topology.tsx:454-460 | a balanced total is the sum of the loads below the board, once for each way down |
| Topology.NoLoopIffRanked | firmware/html_app/src/Topology.tsx:471-477 | boards can be ranked exactly when none hangs off itself |
| Topology.CircuitsReordered | firmware/html_app/src/Topology.tsx:480-487 | the order of the edges has no effect on a board's sum or idle flag |
| Topology.PlainBoard | firmware/html_app/src/Topology.tsx:480-490 | a board without nested boards totals what its edges show, and is idle exactly when each is known idle, unread or shows nothing |
| DerivedFlows.ComputeRemainders | firmware/html_app/src/Topology.tsx:497-523 | a remainder for each edge that is alone and metered beside the boards on a handle; the last such handle in order of appearance wins |
| DerivedFlows.WithSubCuFeeds | firmware/html_app/src/Topology.tsx:468-535 | feeds carry their boards' totals, lone metered siblings their remainders, all other edges are unchanged; with no boards nothing is |
| DerivedFlows.TotalsAreLoads | firmware/html_app/src/Topology.tsx:454-492 | on loop-free wiring every feed shows the load below its board |
| WiringLoops.TotalOnEveryWiring | firmware/html_app/src/Topology.tsx:473-492 | on every wiring, loops included, a fed board's total is what its circuits carry with the nested boards totalled before it, the others counting nothing |
| WiringLoops.TotalledAreFed | firmware/html_app/src/Topology.tsx:494-503 | exactly the fed boards are totalled |
| DerivedFlows.EdgeOrderDoesNotMatter | firmware/html_app/src/Topology.tsx:480-503 | on loop-free wiring the totals do not depend on the order of the edges |
| DerivedFlows.ReadingFlowsIn | firmware/html_app/src/Topology.tsx:430-448 | a positive reading flows into the node that meters the edge, its source by a power-out handle and else its target, or at a grid meter into the node on whose grid handle the edge ends (Matter specification, section 9.2.6.1) |
| DerivedFlows.MeteredBy | firmware/html_app/src/Topology.tsx:420-428 | a node's reading drives an edge it is the source of exactly when that leaves by power-out, and an edge it is the target of exactly when it does not |
| DerivedFlows.OneHandleMetered | firmware/html_app/src/Topology.tsx:420-428 | of the edges leaving a node it meters at most those on its power-out handle |
| DerivedFlows.ReadingStamps | firmware/html_app/src/Topology.tsx:733-745 | what one node's reading does to an edge: board feeds and edges it does not meter stay, on the others the reading flows as it should and is kept as the metered value |
| DerivedFlows.DrawnEitherWay | firmware/html_app/src/Topology.tsx:419-448 | an edge saved the other way round has the same meter exactly when one of its ends is a power-out handle, and by one meter carries the same power into either end exactly when not both are grid handles, or no power flows |
| DerivedFlows.WithUnallocated | firmware/html_app/src/Topology.tsx:542-556 | the unallocated edge carries the unmetered intake, never negative, and its true value beside it |
| DerivedFlows.WithDerivedFlows | firmware/html_app/src/Topology.tsx:558-561 | feeds first, then the unallocated load |
| FlowBalance.SharedHandleBalances | firmware/html_app/src/Topology.tsx:462-467 | behind a shared meter the boards' feeds and the remainder add up to what the meter reads, for an edge that is the lone sibling of no other shared handle |
| SettlingGuard.SharedHandleExactly | firmware/html_app/src/Topology.tsx:505-523 | for every shared handle with one other, metered edge, that is so exactly when the remainder the edge carries is this handle's, or another's of the same size |
| FlowBalance.ConsumerUnitBalances | firmware/html_app/src/Topology.tsx:537-550 | the consumer unit's net flow is zero exactly when metered loads take no more than comes in, and otherwise the shortfall; the unallocated edge keeps the true remainder beside it and no other edge changes |
| FlowBalance.DerivingSettles | firmware/html_app/src/Topology.tsx:468-561 | on every wiring, loops included, deriving twice is deriving once when no remainder leaves a fed sub-board |
| SettlingGuard.SettlesByShift | firmware/html_app/src/Topology.tsx:468-561 | on every wiring, loops included, with any stamps it is so exactly when the shifts of each fed board's circuits, read off the edges before, cancel and leave its idle flag (the unallocated edge runs from the consumer unit to a node of its own, Topology.tsx:1071-1073) |
| SettlingGuard.SettlesWhenFresh | firmware/html_app/src/Topology.tsx:468-561 | on freshly stamped edges those shifts are what boards draw beside the circuits |
| SettlingGuard.StampedFresh | firmware/html_app/src/Topology.tsx:735-744 | edges are fresh when every metered one has just been stamped with its reading |
| SettlingGuard.SettlesWhenConsuming | firmware/html_app/src/Topology.tsx:468-561 | where boards only consume and remainders leave them by their own handles it is so exactly when nothing is drawn on any handle whose remainder leaves a fed board |
| FlowBalance.MeterBesideBoardDrifts | firmware/html_app/src/Topology.tsx:515-523 | a metered load beside a nested board makes the second application differ |
| FlowBalance.SampleFits | firmware/html_app/src/Topology.tsx:515-523 | concrete edges of that kind |
| EndpointTree.ComputeDepths | firmware/main/managers/device_manager.cpp:495-513 | exactly the endpoints reachable from endpoint 0 get a depth, and it is the shortest parts-distance |
| EndpointTree.NoShorterWalk | firmware/main/managers/device_manager.cpp:501-512 | once the queue is empty no walk is shorter than the depth found |
| EndpointTree.DeepestClaimant | firmware/main/managers/device_manager.cpp:522-532 | the first claimant of greatest depth, none exactly without claimants |
| EndpointTree.ClaimantsClaim | firmware/main/managers/device_manager.cpp:487-493 | the claimants of an endpoint are exactly the endpoints that list it |
| EndpointTree.DeviceManager.ResolveParents | firmware/main/managers/device_manager.cpp:478-536 | all parents of the one device are resolved against the shortest depths, other devices unchanged, an unknown node refused |
| EndpointTree.ParentClaims | firmware/main/managers/device_manager.cpp:515-532 | a parent lists the endpoint among its parts |
| EndpointTree.ParentDeepest | firmware/main/managers/device_manager.cpp:515-532 | no claimant lies deeper than the parent, and an endpoint that cannot be reached counts as depth 0 |
| EndpointTree.NoParentMeansUnclaimed | firmware/main/managers/device_manager.cpp:515-520 | no parent exactly when no endpoint claims it, unless an endpoint has the reserved id |
| EndpointTree.EndsExactly | firmware/main/web_server.c:371-389 | on every device the search from an endpoint ends exactly when no climb from it comes to an endpoint twice |
| EndpointTree.LabelOf | firmware/main/web_server.c:371-389 | it then climbs from each unnamed endpoint to the parent listed, and finds no label only where the ancestors end |
| EndpointTree.RevisitNeverEnds | firmware/main/web_server.c:371-389 | otherwise there are climbs of every length |
| EndpointTree.AcyclicNeverRevisits | firmware/main/web_server.c:371-389 | no climb does where parts have no cycle and parents are claimants |
| EndpointTree.NameUnique | firmware/main/web_server.c:371-389 | there is one such climb and one such label for every endpoint |
| EndpointTree.AscentClaims | firmware/main/web_server.c:371-389 | it visits claimants only |
| EndpointTree.AscentBounded | firmware/main/web_server.c:371-389 | a climb that comes to no endpoint twice is no longer than the device |
| EndpointTree.ResolvedWalkable | firmware/main/managers/device_manager.cpp:478-536 | resolving the parents of a device without cycles gives one on which every search ends |
| EndpointTree.SelfPartNeverEnds | firmware/main/web_server.c:371-389 | an unnamed endpoint that is its own part keeps the search going for ever |
| PriceRecorder.WriteBehindRefinesMap | firmware/main/commodity_price.cpp:83-99 | after any interleaving of reports, ticks, flushes and file writes, pending over in-flight over file is the last price recorded for each slot |
| PriceRecorder.StampSeenExactly | firmware/main/commodity_price.cpp:83-102 | a stamp is seen as such exactly when it is not the sentinel or nothing lies beneath |
| PriceRecorder.FailedWriteSeenExactly | firmware/main/commodity_price.cpp:126-157 | an unwritable day loses nothing exactly when its stamps are overtaken or on file |
| PriceRecorder.WriteInvisible | firmware/main/commodity_price.cpp:126-157 | writing a day changes nothing a reader sees |
| PriceRecorder.AdvanceToNextSlot | firmware/main/commodity_price.cpp:104-123 | the loop moves to the start of the next slot, by 1 to 900 seconds |
| PriceRecorder.CoveredRange | firmware/main/commodity_price.cpp:104-123 | the slots stamped are exactly that of the start and those that begin before the end, at most 193 |
| PriceRecorder.PeriodCovers | firmware/main/commodity_price.cpp:104-123 | a report is recorded exactly when its period, clipped to two days back, has begun and is not over; and in exactly the slots that hold its first instant or a later one in the past and before its own end |
| PriceRecorder.CurrentIsLatest | firmware/main/commodity_price.cpp:212-233 | the current price is, of those reported since the last change of source or report without a price, the last of those with the latest start |
| PriceRecorder.Recorder.StampPeriod | firmware/main/commodity_price.cpp:104-123 | stamps exactly the covered slots of the clipped period and no others |
| PriceRecorder.Recorder.ApplyPrice | firmware/main/commodity_price.cpp:215-239 | the newer price becomes current and its period's slots are stamped |
| PriceRecorder.Recorder.TakePending | firmware/main/commodity_price.cpp:126-134 | a flush takes all pending stamps, and no reading through the buffers changes |
| PriceRecorder.Recorder.OnTickTimer | firmware/main/commodity_price.cpp:166-182 | the tick stamps the current price exactly when it has begun and not ended |
| PriceRecorder.Recorder.WriteDay | firmware/main/commodity_price.cpp:126-157 | merges one day's in-flight stamps into its file |
| Tariff.ResolveDay | firmware/main/tariff.cpp:130-147 | every slot takes the first listed of the entries with the latest start at or before it, and no price if there is none or it has elapsed |
| Tariff.OrderDoesNotMatter | firmware/main/tariff.cpp:130-147 | with distinct starts the order of listing does not matter |
| Tariff.OnePrice | firmware/main/tariff.cpp:130-147 | a day's listing leaves one price for a slot, equal starts or not |
| Tariff.EqualStartsFollowListing | firmware/main/tariff.cpp:135-140 | of two entries with the same start the one listed first sets the price |
| Tariff.FindLatest | firmware/main/tariff.cpp:134-141 | the first listed of the latest begun entries, none exactly when none has begun |
| Tariff.ComputeEntryPrice | firmware/main/tariff.cpp:96-128 | the tally over periods and components finds the entry's price |
| Tariff.TallyFinds | firmware/main/tariff.cpp:104-127 | an unbounded component is found exactly if there is one, and the block is one of lowest threshold |
| Tariff.EntryPriceMeans | firmware/main/tariff.cpp:92-128 | the price of an entry is the sum of the components without a threshold that a period listing it lists, if there are any; else that of the first block of lowest threshold; else none |
| Tariff.PriceUnder | firmware/main/tariff.cpp:142-146 | an entry prices as many minutes as it lasts, and all without a duration |
| Tariff.LoadDay | firmware/main/tariff.cpp:461-482 | recorded prices replace exactly the recorded slots, rescaled to the schedule's decimals |
| Tariff.RescaleLoop | firmware/main/tariff.cpp:468-480 | repeated scaling by ten is one exact scaling up or one truncating division |
| Tariff.TruncDivTen | firmware/main/tariff.cpp:474-478 | truncating by ten n times is truncating by ten to the n once |
| Tariff.RescaledMoney | firmware/main/tariff.cpp:468-480 | scaling up keeps the money, scaling down loses less than one last digit, towards zero |
| CommissioningWindow.HandshakeHolds | firmware/main/commands/commissioning_window_command.cpp:75-116 | over every interleaving in which no abandoned request is outstanding as a call arms the wait: at most one side takes a wait, results are read whole and by their own call, abandoned callbacks write nothing, the semaphore is empty between calls, nothing is deleted twice |
| CommissioningWindow.WaitTakenOnce | firmware/main/commands/commissioning_window_command.cpp:157-226 | a wait that is over was taken by exactly one side |
| CommissioningWindow.NothingLeaks | firmware/main/commands/commissioning_window_command.cpp:113-115 | when all is quiet every request issued has been deleted exactly once |
| CommissioningWindow.NextCallSafeExactly | firmware/main/commands/commissioning_window_command.cpp:157-226 | the next call is safe whatever happens exactly when nothing is outstanding |
| CommissioningWindow.ArmingSafeExactly | firmware/main/commands/commissioning_window_command.cpp:157-226 | so is a call about to arm the wait, whatever landed while it was set up |
| CommissioningWindow.OvertakenCallMisread | firmware/main/commands/commissioning_window_command.cpp:75-116 | otherwise an abandoned callback can answer the new call |
| CommissioningWindow.AbandonedReached | firmware/main/commands/commissioning_window_command.cpp:188-207 | an allowed run from the start reaches such a state |
| CommissioningWindow.MisreadReached | firmware/main/commands/commissioning_window_command.cpp:75-207 | and a run from the start has the second call told the first one's result |
| CommissioningWindow.CallAnswered | firmware/main/commands/commissioning_window_command.cpp:156-225 | a call on its own whose callback comes in time reads its own result, and leaves nothing behind |
| CommissioningWindow.CallGivenUp | firmware/main/commands/commissioning_window_command.cpp:193-211 | a call given up on reads nothing, and its late callback cleans up |
| CommissioningWindow.CallOvertakenByAnswer | firmware/main/commands/commissioning_window_command.cpp:193-201 | a callback that claims the wait as it times out is waited for and read |
| CommissioningWindow.CallRefused | firmware/main/commands/commissioning_window_command.cpp:163-191 | a call that cannot be started deletes its own request |
| UriMatcher.UriMatchSegments | firmware/main/web_server.c:2417-2446 | the index loop decides the greedy match |
| UriMatcher.GreedyIsExact | firmware/main/web_server.c:2417-2446 | on templates of whole segments the greedy match is the declarative one, for every URI |
| UriMatcher.GreedyRejectsAll | firmware/main/web_server.c:2417-2446 | every other template matches nothing |
| UriMatcher.MatcherExact | firmware/main/web_server.c:2417-2446 | so matcher and meaning agree on every URI exactly for templates of whole segments |

## Left out

- Rounding of `float` and `double`, and the narrowing casts into the stored structures; everything is over reals.
- Overflow of 32-bit and 64-bit integers, as in sums of readings or prices scaled up by a large power of ten.
- Calendar and daylight-saving arithmetic: days are numbers, the local offset is fixed.
- Files, flash, HTTP, JSON, TLV and the Matter stack; a file is a sequence of records, a directory a map.
- Split files too long to be read back, and the cost cache, which has no chain of its own.
- The header of a price file (currency, decimals), which every flush overwrites.
- A bound of four live attempts at all times: a late callback can free a newer attempt's slot of the same node.
- Late results that cross into a later request when a node is removed.
- The slot and table locking of the subscription manager is taken as atomic per section; the time an attempt started is kept in `Manager` but the step relation lets any slot expire at any moment.
- The commissioning-window handshake is modelled on values: shared flag, semaphore, result and requests are fields of one state that each step replaces, so aliasing of the request objects is not captured.
- SolarNeverOverstated: not stated for days with state-of-charge readings, whose ledger holds charge units that have no Wh value without the battery's capacity; `ChargeLaws.ReadingLaw` says what such a day keeps.
- Object identity of unchanged edges on the canvas; edges are compared by value.
- Missing and empty handle names of edges are not told apart.
- The histogram and the standby pass of appliance training, mean and deviation of the recorded cycles.
- Days with a clock change in the cost: a minute's tariff slot follows from its index alone.
- Hourly rollups, forecasts, the value cache, node editing, the page layout and rendering.

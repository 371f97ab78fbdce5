# The chair game: ledger, benchmark and queue, verified

The game keeps, for every room, two tables: `adding` (isu gained at a time) and `buying` (one row per copy of an
item, with the time it is built).  A purchase costs its price at once and produces power from its build time on.
Everything the game shows follows from the tables:

- `B(t)`, the balance in milli-isu: 1000 times the isu dated up to t, minus 1000 times every price paid, plus what
  the copies built by t have produced;
- `P(t)`, the total power at t, and for each item its power and `N_i(t)`, the number of copies built by t.

This project models three parts of the repository in Dafny 4.11 and proves what they promise.

1. **The room and its status.** `Items`, `Ledger` and `Windows` define B, P and N and the 1000 ms walk; `Status`
   is `calcStatus` and `StatusTruth` says what it shows in terms of the tables; `Rooms` is the room object with its
   requests; `Runs` states what holds over whole runs; `Transactions` interleaves the requests statement by
   statement; `Exponents` is the 15-digit notation, slow and fast; `Format` the format check; `Client` the browser's
   extrapolation; `RowOrder` what the order of a listing does to a status.
2. **The benchmark.** `BenchLog` reads the request log; `StatusReading`, `StatusCheck`, `EventJump`,
   `OnSaleSearch` and `BenchCheck` are the slow and the fast status validator; `GameLog` is the whole log
   validation, `LogPairing` the same on requests and responses as logged.  `TableReading`, `Rows`, `Soundness` and
   `Bracketing` prove the fast one sound under requests that were never answered; `AskedFor` says of both what a
   status they pass must have behind it in the log, and `Bounds` that the fast one's two balances are those of rooms
   the log allows.  `Answered` characterises the slow one, `FastIsSlow` compares the two, `HonestRuns`, `HonestGame`
   and `Connections` carry this to whole runs of a room and to what each client's connection carries.  `Verdicts`
   gives the exact conditions for answered runs, with a run the fast validator refuses for each, and `LateRequests`
   what later requests of a status's own time do to it.
3. **The portal's job queue.** `Portal` has the tables and the functions as they run alone, `QueueRuns` any number
   of workers whose SELECT and UPDATE statements interleave.

`Common` and `Sums` hold shared vocabulary and the laws of sums over table rows.  Code that updates in place is a
class or a method with loops, proved against a specification function whose properties are then lemmas.  Verify
everything with `dafny verify dfyconfig.toml`.

Hypotheses, taken from the schema and the game's data: coefficients are natural numbers and power bases at least 1;
adding times are unique (their primary key), and an item's buying rows, numbered from 1 without gaps, are listed in
that order, except where other listings are treated (`Status`, `RowOrder`); isu is not negative where a lemma says
so; a request time of 0 means "no time", so the frozen-past theorem is stated as an exact condition on it.

## Model

| member | source | states |
|---|---|---|
| Items.MItem.GetPrice | webapp/nodejs/MItem.js:26-38 | every price is at least 1 |
| Items.MItem.GetPower | webapp/nodejs/MItem.js:40-52 | every power is at least 1 |
| Items.PricesGrow | webapp/nodejs/MItem.js:26-38 | copy 0 costs base^b; from each copy to the next the price grows by the factor base^a and by the step from c*x + 1 to c*(x + 1) + 1 |
| Items.PowersGrow | webapp/nodejs/MItem.js:40-52 | likewise the power |
| Items.SecondItem | db/m_item.sql:2-2 | the x-th copy of the second item costs 2x + 1 and has power x + 1 |
| Items.ThirdItem | db/m_item.sql:3-3 | the x-th copy of the third item costs (x + 1) * 8 * 2^x and has power 1024 * 2^x |
| Items.GmpExpIsPow | webapp/php/game.php:38-53 | power by squaring is the power exactly when the exponent is not 0 (it returns 0 there) |
| Ledger.BalanceRunsLinearly | webapp/nodejs/Game.js:215-225 | between dated rows B is linear with slope P, and P does not change |
| Ledger.BalanceNeverFalls | webapp/nodejs/Game.js:215-225 | with no negative isu, B and P never fall as time passes |
| Ledger.StrictlyBeforeIsTheSame | webapp/python/game.py:282-284 | counting production strictly before the request time gives the same balance |
| Ledger.BalanceAfterPurchase | webapp/nodejs/Game.js:90-100 | one more purchase moves B by its price and by what it produces from its time on |
| Ledger.RowOrderIsIrrelevant | webapp/nodejs/Game.js:90-100 | B, P, powers and counts as the tables define them do not depend on the order the rows come in |
| Ledger.TwoCopies | webapp/nodejs/Game.js:90-100 | in a room with 10 isu and the first two copies of the second item, B, P and N come out as the numbers the rules give |
| Windows.SimulationIsLedger | webapp/nodejs/Game.js:168-264 | at every step t of the simulation the mutable totals are B(t), P(t), each item's power and N_i(t) |
| Windows.ScheduleIsExact | webapp/nodejs/Game.js:206-253 | schedule times start at c, strictly increase, are exactly the event times of the window, and carry the exact balance and power |
| Windows.ScheduleExtrapolates | webapp/public/game.js:69-80 | the last schedule entry not after t, extended by its power, gives balance and power at t: nothing is lost |
| Windows.BatchesAreExact | webapp/nodejs/Game.js:227-245 | building entries have strictly increasing times, one per build time, with the count and the power reached then |
| Windows.OnSaleIsFirst | webapp/nodejs/Game.js:195-263 | the on-sale time is the first moment of the window at which the next copy is affordable, and is missing exactly when there is none |
| Windows.OnSaleIsAntitone | bench/src/bench/gamelog.go:405-450 | a window with a higher balance throughout has every item on sale no later |
| Windows.AlikeWindows | bench/src/bench/gamelog.go:666-703 | windows with the same rows differ only by a constant in their balances: same powers, counts, event times and batches |
| Status.ReadAddings | webapp/nodejs/Game.js:168-175 | splits the adding rows into the isu that counts at c and the rows dated later |
| Status.ReadBuyings | webapp/nodejs/Game.js:177-193 | on any listing the totals are those of the rows with each built row's power taken at the running count of the item's rows; where every row dated by c is listed at its ordinal they are the closed forms at c |
| Status.Simulate | webapp/nodejs/Game.js:214-264 | the 1000-step loop yields the window's schedule, building batches and on-sale times |
| Status.CalcStatus | webapp/nodejs/Game.js:146-299 | on any listing the returned object lists the schedule, items, on-sale times and later adds of the window so read, each once; where every row dated by c is listed at its ordinal that is the tables' own status |
| StatusTruth.ScheduleIsTrue | webapp/nodejs/Game.js:206-253 | a status of any tables, in terms of the tables alone: the schedule starts at c, its later times are exactly those of the rows of the next 1000 ms, increasing, and every entry shows B and P of its time |
| StatusTruth.ItemsAreShown | webapp/nodejs/Game.js:266-288 | every item of the game once, with its count of rows, N_i(c), its power at c, the price of the copy after the last one bought, and exactly the build times of the next 1000 ms with the count and power reached then |
| StatusTruth.AddsAreShown | webapp/nodejs/Game.js:168-175 | the adds listed are exactly the rows dated after c, each once |
| StatusTruth.SalesAreTrue | webapp/nodejs/Game.js:195-263 | an item is listed as on sale, once, exactly if its next copy is affordable at some moment from c to c + 1000, at 0 if at c and else at the first such moment |
| RowOrder.ListingReadsRight | webapp/nodejs/Game.js:177-193 | the loop computes the closed forms at c, whatever the item master, exactly if the listing shows each item's build times by c in the order of the ordinals |
| RowOrder.ListingOrderIsIrrelevant | webapp/nodejs/Game.js:168-193 | two listings of the same rows that show each item's build times by c in the same order have exactly the same statuses, announced adds included |
| RowOrder.SwappedListing | webapp/nodejs/Game.js:185-185 | two rows listed the wrong way round, for which the status is another one |
| Exponents.Big2ExpTruncates | webapp/nodejs/Game.js:311-325 | the text notation is truncating division: the number itself below 10^15, else a full 15-digit mantissa |
| Exponents.FastNotation.Big2ExpFast | bench/src/bench/util.go:30-79 | the quotient loop with its cache of powers terminates, never goes wrong and returns what the decimal text gives, for any start exponent the digit estimate can yield |
| Exponents.Big2ExpIsMonotone | bench/src/bench/structure.go:60-73 | rounding keeps the order of the exponent-then-mantissa comparison |
| Exponents.Big2ExpReflectsOrder | bench/src/bench/structure.go:60-65 | a strictly smaller notation means a strictly smaller number |
| Exponents.OrderIsTotal | bench/src/bench/structure.go:60-73 | of two notations one is less exactly if the other is not less or equal, and only equal ones are less or equal both ways |
| Exponents.Big2ExpOrder | bench/src/bench/structure.go:60-73 | one rounded number is less than another exactly if it is less and rounds to another notation |
| Rooms.Room.UpdateRoomTime | webapp/nodejs/Game.js:128-144 | advances the room time exactly if the clock is not behind it and the request is not past |
| Rooms.Room.AddIsu | webapp/nodejs/Game.js:42-68 | accepted exactly by the time rule; the row of that time grows by the amount, everything else stays; otherwise nothing changes |
| Rooms.Room.BuyItem | webapp/nodejs/Game.js:70-121 | accepted exactly if the count is current and B(request time) covers the price; a refusal restores even the room time |
| Rooms.Room.GetStatus | webapp/nodejs/Game.js:11-40 | a status of the tables at the clock read under the lock, or none when the room is ahead of the clock |
| Rooms.BalanceAt | webapp/nodejs/Game.js:81-100 | the purchase's own loops compute the same B as the status |
| Rooms.StepKeepsValid | db/isudb.sql:20-33 | every transaction keeps the tables' keys and the gapless ordinals |
| Runs.IsuIsConserved | webapp/nodejs/Game.js:49-54 | over any run the table's isu up to t is exactly what accepted adds dated up to t brought |
| Runs.BalanceAfterAdd | webapp/nodejs/Game.js:49-54 | an accepted add raises B by 1000 per isu from its time on, and nothing before |
| Runs.PurchasesArePermanent | webapp/nodejs/Game.js:107-107 | purchases are never changed or removed, and the room time never goes back |
| Runs.OrdinalsAreContiguous | webapp/nodejs/Game.js:77-107 | an item's ordinals are exactly 1 to its count |
| Runs.NoCopyIsBoughtTwice | webapp/nodejs/Game.js:77-80 | of two accepted purchases of an item the later has the larger count |
| Runs.RoomStaysSolvent | webapp/nodejs/Game.js:82-107 | after any run B(t) is not negative from the build time of the last accepted purchase on |
| Runs.SettledStatusIsSolvent | webapp/nodejs/Game.js:206-253 | every status taken once all purchases are built shows no negative balance in its whole window |
| Runs.PastIsFrozenUnlessUntimed | webapp/nodejs/Game.js:128-144 | an accepted request leaves all earlier add totals, counts and powers alone exactly when it carries a time, or there is no past at time 0, or it adds nothing |
| Runs.PastIsPermanent | webapp/nodejs/Game.js:128-144 | whatever timed requests follow a state, nothing before its room time is ever rewritten |
| Runs.StatusesNeverRegress | webapp/nodejs/Game.js:271-281 | from one status of a room to any later one time, built counts, bought counts and total power never decrease |
| Runs.OnSaleMeansBuyable | webapp/nodejs/Game.js:255-263 | with the tables unchanged, a purchase at a time r of the window succeeds exactly if the status lists the item as on sale by r |
| Runs.NextPriceIsPaid | webapp/nodejs/Game.js:195-204 | next_price is, rounded, what the next copy costs: bought for any time r it lowers B by just that before r, and at any clock and room time a purchase succeeds exactly if its time is right and B(r) covers it |
| Transactions.Serializable | webapp/nodejs/Game.js:42-144 | however transactions interleave and whatever the clock does, the committed tables are those of the committed requests run in commit order, each accepted there, with room times that never fall |
| Transactions.ReadsAreCurrent | webapp/nodejs/Game.js:123-133 | past the room lock every plain SELECT sees exactly what is committed |
| Transactions.OutcomeIsSerial | webapp/go/src/app/game.go:164-328 | a transaction rolls itself back exactly on requests the serial room refuses, and commits the serial step |
| Transactions.AloneIsSerial | webapp/nodejs/Game.js:11-121 | a request of any kind begun while the lock is free and run alone to its end has exactly the effect of the serial room, is recorded exactly if the room accepts it, and leaves the lock free |
| Transactions.AbortFrees | webapp/nodejs/Game.js:59-67 | a rollback changes no table and no other transaction, and frees the lock |
| Transactions.FirstReadDecides | webapp/nodejs/Game.js:123-127 | a purchase is decided by the tables its first SELECT saw, which is why nothing may be read before the lock |
| Transactions.StaleReadIsCommitted | webapp/nodejs/Game.js:123-127 | with one read before the lock, a purchase the room cannot pay for is committed, although run serially on the committed tables it would be refused at any clock |
| Format.ValidateGameStatusFormat | bench/src/bench/validation.go:12-89 | accepts exactly the well-formed statuses, isu texts being read as numbers |
| Format.FormatMeans | bench/src/bench/validation.go:12-89 | what that is, written out: at least one schedule entry, times rising, balances and powers never falling in the exponent-then-mantissa order; every item once with its bounds; adds later than the status; on-sale times of known items, not positive or later |
| Format.RoundedScheduleForm | bench/src/bench/validation.go:25-38 | a schedule of rounded numbers has the form exactly if times rise and every number is at least the one before it or rounds the same |
| Format.FallingIsRefused | bench/src/bench/validation.go:33-38 | a status whose balance or power falls from one entry to the next, and rounds differently, is refused |
| Format.ComputedStatusPassesFormat | bench/src/bench/validation.go:12-89 | every status computed from a solvent room and stamped with a positive time passes |
| OnSaleSearch.CalcOnSale | bench/src/bench/gamelog.go:405-450 | returns the search function's answer for every curve; on a rising curve from a time not negative that is the first time of the window that covers the price, or -1 if there is none, exactly when the 64-bit sum does not wrap, and a wrapped answer is below -1 |
| OnSaleSearch.Wrap64IsInt64 | bench/src/bench/gamelog.go:438-439 | the 64-bit sum is the number of that range that differs by a multiple of 2^64 |
| OnSaleSearch.AnswerSign | bench/src/bench/gamelog.go:425-449 | on any curve, a price within the last start is answered by a time of the window unless the sum wraps, and then by a number below -1 |
| OnSaleSearch.HigherIsFound | bench/src/bench/gamelog.go:405-450 | where the search under a lower curve finds a time, the one under a higher curve does too exactly if it does not wrap |
| OnSaleSearch.FirstIsAntitone | bench/src/bench/gamelog.go:405-450 | the answer for a higher curve comes no later, and exists whenever the lower one's does |
| OnSaleSearch.OverflowExample | bench/src/bench/gamelog.go:438-439 | a price of the game's form and a one-millisecond jump for which the sum wraps and the item is missed |
| OnSaleSearch.FirstIsOnSale | bench/src/bench/gamelog.go:405-450 | on a window's schedule the first covering time is the window's on-sale time |
| OnSaleSearch.SearchedIsOnSale | bench/src/bench/gamelog.go:721-734 | on a growing window the validator takes exactly the on-sale time unless the search wraps; then it takes none although the item is on sale |
| BenchLog.ReadLog | bench/src/bench/gamelog.go:955-1019 | apart from its look-ups of response, client and status, stops exactly on unacceptable logs; otherwise the dictionaries hold the confirmed isu by time, the confirmed purchases, and total isu and earliest and latest time of unanswered requests |
| BenchLog.AcceptableExactly | bench/src/bench/gamelog.go:955-1019 | a log is acceptable exactly if no copy was won twice, nothing else than adds and purchases was asked for, and in the pretest everything was answered |
| BenchLog.LogDeterminesDicts | bench/src/bench/gamelog.go:955-1019 | a log has one set of dictionaries |
| BenchLog.LogOrderIsIrrelevant | bench/src/bench/gamelog.go:955-1019 | logging the same requests in another order gives the same dictionaries and no new error |
| BenchLog.PrefixSums | bench/src/bench/gamelog.go:1048-1077 | each key's entry is the total up to that key |
| BenchLog.SumByPrefix | bench/src/bench/gamelog.go:481-497 | the entry of the last key up to c is the whole total up to c |
| BenchLog.SumDirectly | bench/src/bench/gamelog.go:214-218 | the direct loop gives the same total |
| EventJump.EventOffsets | bench/src/bench/gamelog.go:647-665 | the sorted list holds exactly the event offsets of the window, increasing |
| EventJump.JumpThrough | bench/src/bench/gamelog.go:638-703 | jumping from event to event yields the times, both balances, powers and building lists of the millisecond walk |
| StatusCheck.ValidateStatus | bench/src/bench/gamelog.go:187-403 | accepts exactly the statuses the log backs and that show the window the log implies, never negative |
| AskedFor.AcceptsIfWon | bench/src/bench/gamelog.go:187-273 | against the log itself: every add is covered by isu that was confirmed for its time, every copy was confirmed, for a time by c exactly if shown as built, and the next was not confirmed by c |
| Answered.AcceptsWhatCalcStatusShows | bench/src/bench/gamelog.go:187-403 | a well-formed status is accepted exactly if its adds and copies are logged, those dated by its time first and none of those left out, and it agrees, count_built included, with what calcStatus computes from the logged adds up to its time, its own later adds and the first count_bought logged purchases, none of the balances negative |
| Answered.ComputedStatusIsAccepted | bench/src/bench/gamelog.go:187-403 | with every request answered, a computed status is accepted exactly if the rows dated by its time come first, item by item, and its balance is not negative |
| BenchCheck.ValidateStatusBench | bench/src/bench/gamelog.go:452-817 | for every well-formed status the verdict, wrapped searches included, is exactly BenchVerdict; on windows that grow from a time not negative and without a wrap it is that the status fits the log and lies between the windows of the lower and the upper balance |
| AskedFor.PassesIfAsked | bench/src/bench/gamelog.go:499-620 | over the log itself, for any status that builds no more than was bought: it passes exactly if each add is covered by isu asked for and not refused; each built copy was won for a time by c, or asked for by c without an answer; each copy to come was won for just the time of the first building entry that counts it, or never won, that time being after c and between two unanswered requests for it; the next copy was not won by c; and it lies between the two windows, the upper balance not negative |
| AskedFor.UnaskedIsRefused | bench/src/bench/gamelog.go:594-606 | a status that places a copy nobody confirmed at a time not after c, or before or after every unanswered request for it, is refused |
| AskedFor.LateCopyIsRefused | bench/src/bench/gamelog.go:594-606 | an instance: a copy asked for at c + 300 without an answer and placed at c + 700 |
| Bounds.LowIsReached | bench/src/bench/gamelog.go:521-572 | the bounds are tight: for a fitting status some room the log allows, with the items it shows, has the lower window and the lower opening balance |
| Bounds.HighIsReached | bench/src/bench/gamelog.go:521-572 | and some such room has the upper ones |
| Bounds.PassingLiesBetweenRooms | bench/src/bench/gamelog.go:705-756 | completeness: each balance of a passing status lies, as rounded, between those of two rooms the log allows, which have the items and the total powers it shows |
| BenchCheck.CompareBetween | bench/src/bench/gamelog.go:705-756 | schedule entries must lie between the rounded lower (never below 0) and upper balance, with equal times and powers |
| BenchCheck.CompareOnSaleBetween | bench/src/bench/gamelog.go:787-814 | on-sale times must lie between the upper and the lower balance's, with the exact rule for missing ones |
| BenchCheck.FitsIfBetween | bench/src/bench/gamelog.go:787-814 | that rule: no earlier than the upper balance's time and no later than the lower one's, a missing time being later than any other |
| Rows.BuiltMeansDated | webapp/nodejs/Game.js:183-188 | where the copies of an item dated by t come before the others, a copy is dated by t exactly if it is among the first N_i(t) |
| Rows.WalkFindsTime | bench/src/bench/gamelog.go:573-612 | on a genuine building list the walking index finds, for every copy still to come, the entry with its time |
| TableReading.ReadingIsWindow | bench/src/bench/gamelog.go:230-268 | reading a status copy by copy with the rows' times gives back the window of the tables |
| Soundness.LoggedIsuBrackets | bench/src/bench/gamelog.go:481-497 | the table's isu lies between the confirmed total and the confirmed plus unanswered total |
| Bracketing.BalancesBracketTruth | bench/src/bench/gamelog.go:521-632 | for purchases in time order and within the window, whichever unanswered requests took effect and whenever, B(t) lies between the two balances at every t from c on |
| Bracketing.GenuineStatusIsAccepted | bench/src/bench/gamelog.go:452-817 | interval soundness of the specification: a solvent status computed from tables the log explains, later purchases in time order, lies between the two windows exactly if no purchase is dated beyond its window |
| Bracketing.GenuineVerdict | bench/src/bench/gamelog.go:452-817 | interval soundness of the code: such a status passes exactly if no purchase is dated beyond its window and the upper balance's search wraps for no item it lists as on sale |
| Bracketing.NothingIsWrong | bench/src/bench/gamelog.go:794-798 | for a status of a time not negative that fits the log, with unanswered adds not negative, the "something wrong 2" exit is taken on an item exactly if the lower search finds a time and the upper search wraps |
| Bracketing.LoggedOpenIsOrdered | bench/src/bench/gamelog.go:969-985 | the dictionaries of any log that asks for no negative isu meet what that supposes of unanswered requests |
| Verdicts.SomethingIsWrong | bench/src/bench/gamelog.go:794-798 | a run whose last add, of 1 isu, is lost: its solvent, timely status fits the log, the exit is taken on the item, and the status is refused |
| Bracketing.GenuineSearchesAreExact | bench/src/bench/gamelog.go:721-734 | for genuine statuses the searches are exact exactly if none wraps at the prices of the status's own items |
| FastIsSlow.FastIsSlow | bench/src/bench/gamelog.go:452-817 | the two specifications: with every request answered, the fast one admits exactly the statuses the slow one does whose items were bought in time order from the status time on, none beyond the window |
| FastIsSlow.FastVerdictIsSlow | bench/src/bench/gamelog.go:452-817 | the two validators as coded, announced adds not negative: a status the slow one accepts passes the fast one exactly if its items were bought in that order and the search wraps for none it lists as on sale; without a wrap the fast one passes nothing else |
| Verdicts.AnsweredVerdict | bench/src/bench/gamelog.go:452-817 | with every request answered, a computed status passes the fast validator exactly if its balance is not negative, its purchases are in time order from its time on and within its window, and the search wraps for no item it lists as on sale |
| Verdicts.DebtIsRefused | bench/src/bench/gamelog.go:634-636 | a run of an add and a purchase dated half a second ahead, whose status is refused for its negative balance |
| Verdicts.DisorderIsRefused | bench/src/bench/gamelog.go:573-612 | a run that dates the second copy before the first, whose status is refused |
| Verdicts.BeyondIsRefused | bench/src/bench/gamelog.go:573-612 | a solvent run in time order that dates a purchase a second and a half ahead, beyond the window, whose status is refused |
| Verdicts.WrapIsRefused | bench/src/bench/gamelog.go:405-450 | a solvent, timely run whose status is refused because the search for an item it lists as on sale wraps |
| LateRequests.ListedVerdict | bench/src/bench/gamelog.go:452-817 | with every request answered, a status that lists the items and later adds of tables the log explains, whatever schedule and on-sale times it shows, passes the fast validator exactly if the purchases are in time order from its time on and within its window, the balance is not negative, and it shows the tables' schedule and the on-sale times searched on it |
| LateRequests.ListedIsAccepted | bench/src/bench/gamelog.go:187-403 | and passes the slow one exactly if the purchases dated by its time come first, the balance is not negative, and it shows the tables' schedule and true on-sale times |
| LateRequests.LogExplainsLate | bench/src/bench/gamelog.go:955-1019 | the log of any run explains a state's tables with the isu later adds of the state's own time brought, unless a copy the state does not count was bought for that time or before |
| LateRequests.RunVerdict | bench/src/bench/gamelog.go:452-817 | any status of a fully answered run passes the fast validator against the finished log exactly if no copy bought next is dated by its time, its purchases are in time order from then on and within its window, the balance of its tables with the later adds of its own time is not negative, and it shows the schedule and the searched on-sale times of those tables |
| LateRequests.RunAcceptance | bench/src/bench/gamelog.go:187-403 | and the slow one exactly if no copy bought next is dated by its time, the purchases dated by its time come first, that balance is not negative, and it shows the schedule and the on-sale times of those tables |
| LateRequests.LateIsuMustVanish | bench/src/bench/gamelog.go:705-756 | so a status passes only if the late isu leaves its balance the same in the 15 digits shown |
| LateRequests.SameTimeIsRefused | bench/src/bench/gamelog.go:481-497 | a status followed by an add of its own time is refused, the log holding isu the status does not show |
| LateRequests.LatePurchaseIsRefused | bench/src/bench/gamelog.go:615-620 | a status followed by a purchase for its own time is refused, the log holding a copy it does not count |
| LateRequests.AnsweredRunIsAccepted | bench/src/bench/gamelog.go:452-817 | all statuses of a fully answered run, solvent or not, pass exactly if each meets the condition of RunVerdict |
| LateRequests.AnsweredPretestIsAccepted | bench/src/bench/gamelog.go:1022-1046 | the pretest's checks of purchases and statuses succeed exactly if each item's purchases were dated in the order they were made and each status meets the condition of RunAcceptance |
| GameLog.GetLatestStatus | bench/src/bench/gamelog.go:126-142 | of the statuses received in the span, the last one with the greatest time, or none exactly if none was received |
| GameLog.LatestIsLast | bench/src/bench/gamelog.go:126-142 | with statuses in time order it came in no earlier than any other in the span |
| GameLog.SortingSorts | bench/src/bench/gamelog.go:941-945 | each client's list is put in the order of its clock |
| GameLog.ValidateAddIsu | bench/src/bench/gamelog.go:144-172 | an add dated after the status must be announced with at least its isu and have a later schedule entry |
| GameLog.ValidateBuyItem | bench/src/bench/gamelog.go:174-185 | the item must count at least the purchases the request had seen |
| GameLog.CheckItemOrder | bench/src/bench/gamelog.go:1024-1035 | the item's confirmed purchases are numbered without gaps, in time order |
| GameLog.SeenIsReceived | bench/src/bench/gamelog.go:126-142 | the status a request is held against was received by its client between sending and hearing back and has the greatest time of those; there is none exactly if none was received |
| GameLog.DeniedIsRefused | bench/src/bench/gamelog.go:985-1012 | a confirmed request is not reflected if no status came in the span, or every one announces less isu for a later add or none, does not schedule it, or counts fewer copies than the request had seen |
| GameLog.ValidateGameLog | bench/src/bench/gamelog.go:913-1094 | succeeds exactly if the log is acceptable, every confirmed request is reflected in the latest status its client received between sending it and hearing back, and every status gets the verdict of the pretest's or the benchmark's validator on the log's dictionaries |
| LogPairing.PairedIsHeard | bench/src/bench/gamelog.go:947-968 | unless responses repeat, a request keeps its client and sending time, is paired with the response that names it, and counts as unanswered exactly if there is none |
| LogPairing.ValidateLogs | bench/src/bench/gamelog.go:913-1094 | on the statuses, requests and responses as logged, succeeds exactly if no two responses name one request, each comes to the client that asked, the paired log is acceptable, every confirmed request is reflected in the latest status its client received in its span, and every status gets the validator's verdict |
| HonestGame.StatusReflectsAdd | bench/src/bench/gamelog.go:144-172 | a status computed once the add is in the table reflects it exactly if it is dated no later than the window's end |
| HonestGame.StatusReflectsBuy | bench/src/bench/gamelog.go:174-185 | and always reflects a purchase |
| HonestGame.SeenReflects | webapp/go/src/app/game.go:597-618 | a status computed after a request was processed, no more than a window before an add's time, reflects the request |
| Connections.StatusBeforeResponse | webapp/go/src/app/game.go:539-636 | on every connection statuses are written in the order they were computed, and a successful response right after a status that counts its request |
| Connections.TurnsAreWritten | webapp/go/src/app/game.go:539-636 | every turn of the serving loop is written in its place and nothing else is: a status, a status and then the response, or the response of a refusal |
| Connections.RunsAreLogged | bench/src/bench/gamelog.go:913-1012 | every fair run has connections and logs as the honest-run results suppose, with all its answers heard, if some report counts each successful add within a second before its time |
| Connections.ArrivalsInOrder | webapp/go/src/app/game.go:597-618 | statuses reach a client with nondecreasing status times, because room times never fall |
| Connections.ChosenIsLater | bench/src/bench/gamelog.go:126-142 | the status chosen between sending and hearing back was computed no earlier than the one written just before the response |
| Connections.HonestLogsReflect | bench/src/bench/gamelog.go:985-1012 | so every confirmed request of an honest run is reflected in the status it is held against |
| HonestRuns.HonestLogIsAcceptable | bench/src/bench/gamelog.go:955-1019 | the log of any run passes the request loop: no copy is confirmed twice |
| HonestRuns.LogExplainsEveryState | bench/src/bench/gamelog.go:955-1019 | the log of a run with answered, silent and lost requests explains the tables at every state whose time no later request carries |
| HonestGame.HonestRunIsAccepted | bench/src/bench/gamelog.go:452-817 | interval soundness over whole runs, as coded, requests answered, silent or lost: all statuses of a run, solvent and undisturbed by later requests of their time or by the order of purchases, pass against its log exactly if each has no purchase beyond its window and no wrap on an item it lists as on sale |
| Connections.ValidateHonestRun | bench/src/bench/gamelog.go:913-1094 | the whole validation of the logs of an honest run, requests logged in any order, succeeds exactly if every status meets those two conditions, none being disturbed; and of a fully answered run, disturbed or not, exactly if every status meets the condition of RunVerdict |
| HonestGame.HonestPretestIsAccepted | bench/src/bench/gamelog.go:1022-1046 | on a fully answered run with undisturbed statuses the pretest's checks of purchases and statuses succeed exactly if each item's purchases were dated in the order they were made |
| Connections.ValidateHonestPretest | bench/src/bench/gamelog.go:913-1046 | the whole pretest validation, reflected requests included, succeeds exactly if each item's purchases were dated in the order they were made and every status meets the condition of RunAcceptance, which undisturbed ones do |
| Client.CalcSchedule | webapp/public/game.js:69-80 | picks the last entry not after the time and extends it by its power |
| Client.ExtrapolationIsExact | webapp/public/game.js:69-80 | on an exact schedule the client shows B(t) and P(t) |
| Client.CalcItem | webapp/public/game.js:96-121 | count and power of the last entry reached, then every later copy with the time left |
| Client.ClientDrawsTruth | webapp/public/game.js:96-121 | on a genuine status of any tables this is N_i(t) and the item's power at t, and exactly the copies N_i(t)+1 to N_i(c+1000), once each and in order, each with the time left until N_i first reaches it |
| Client.ClientDrawsRows | webapp/public/game.js:107-112 | with later purchases in time order the time left is that to the copy's own row |
| Client.EnabledMeansBuyable | webapp/public/game.js:92-94 | with the tables unchanged, a button is enabled exactly if a purchase dated then would succeed |
| Client.PressedButtonBuys | webapp/public/game.js:309-322 | the purchase an enabled button sends, dated one second ahead, succeeds if it arrives in that second |
| Client.ShowsTheLatest | webapp/public/game.js:234-249 | in whatever order statuses arrive, the client shows the latest, and of equally late ones the last to arrive |
| Portal.Queue.EnqueueJob | portal/src/portal/queue.go:18-39 | refuses exactly a team with a job waiting or running, else appends a waiting job of that team, group and address |
| Portal.Queue.DequeueJob | portal/src/portal/queue.go:41-80 | hands out the oldest job that is waiting and of the group, or none exactly if there is no such job, and marks only it, as running on the node |
| Portal.Queue.CancelJob | portal/src/portal/queue.go:82-124 | cancels only the team's oldest waiting job |
| Portal.Queue.DoneJob | portal/src/portal/queue.go:126-187 | succeeds exactly on a running job; then result, score and team row change together, else nothing does |
| Portal.Queue.AbortJob | portal/src/portal/queue.go:189-197 | aborts only a running job and touches no other row |
| Portal.Queue.CheckTimeoutJob | portal/src/portal/queue.go:199-214 | aborts exactly the running jobs untouched for 150 seconds and counts them |
| QueueRuns.EnqueueAlone | portal/src/portal/queue.go:18-39 | with nothing in between, the two statements change exactly what the function changes, and leave the worker free |
| QueueRuns.DequeueAlone | portal/src/portal/queue.go:41-80 | likewise, handing out the oldest waiting job of the group, to the worker that asked |
| QueueRuns.CancelAlone | portal/src/portal/queue.go:82-124 | likewise for cancel |
| QueueRuns.DoneAlone | portal/src/portal/queue.go:126-187 | likewise for the whole transaction: a running job is completed with its score and the locks are released, anything else is left alone |
| QueueRuns.AbortAndTimeoutAlone | portal/src/portal/queue.go:189-214 | and for the abort of a job and the timeout of stale ones |
| QueueRuns.QuitUndoes | portal/src/portal/queue.go:126-187 | a worker that gives up undoes what it has not committed, releases its locks and touches nothing else |
| QueueRuns.StatusesMoveOneWay | portal/db/schema.sql:57-70 | whatever statements interleave, jobs are only appended and statuses only move from waiting to running or canceled, and from running to done or aborted |
| QueueRuns.DispatchIsFifo | portal/src/portal/queue.go:41-80 | over all interleavings no job is handed out twice, and within a group ids are handed out in increasing order |
| QueueRuns.DispatchedToTheirGroup | portal/src/portal/queue.go:41-80 | over all interleavings every job handed out is of the group its worker asked for, and stays on that worker's node |
| QueueRuns.HandedOutMeansRun | portal/src/portal/queue.go:41-80 | a job was handed out exactly if it is running, done or aborted |
| QueueRuns.StandingMeans | portal/src/portal/queue.go:164-178 | a team's standing is its last row's score and the maximum of its rows |
| QueueRuns.ScoresMatchJobs | portal/src/portal/queue.go:126-187 | in every reachable state the scores rows are one to one with the jobs done and passed, aborted and canceled jobs never contribute, and every team row holds its latest and best score |
| QueueRuns.SettledForever | portal/src/portal/queue.go:126-214 | over any run a job once done, aborted or canceled stays so |
| QueueRuns.ScoresForever | portal/src/portal/queue.go:164-178 | over any run recorded scores stay recorded, in order |
| QueueRuns.OneActiveExactly | portal/src/portal/queue.go:18-39 | throughout a run no team has two active jobs exactly if every executed INSERT meets no active job of its team |
| QueueRuns.OneActivePerTeam | portal/src/portal/queue.go:18-39 | in particular if SELECT and INSERT of every enqueue run at once |
| QueueRuns.TwoActiveJobs | portal/src/portal/queue.go:33-33 | otherwise two interleaved requests can enqueue one team twice |

## Left out

- CalcStatus: supposes that buying rows name known items, as keys and purchases guarantee.
- HonestRunIsAccepted: with requests left unanswered it supposes, at each status, a balance that is not negative, later
  purchases in time order per item, and no later request dated exactly the status's time.  Without these the benchmark
  can refuse an honest server: DebtIsRefused, DisorderIsRefused, SameTimeIsRefused and LatePurchaseIsRefused are runs
  where it does.  Where every request was answered, RunVerdict and RunAcceptance are the exact conditions without any of
  these suppositions.
- LowIsReached, HighIsReached and PassingLiesBetweenRooms suppose that confirmed purchases name items of the game and
  that unanswered requests add no negative isu.
- NothingIsWrong: says nothing of a status time before 1970, where a time found can be negative and is then taken for
  none.
- ValidateGameStatusFormat: amounts of isu are integers; the texts they travel in, and the check that such a text is
  not empty, are not modelled.
- ValidateGameLog: its own checks of a status's shape (`bench/src/bench/gamelog.go:915-932`) are implied by the format
  check every logged status has passed (`bench/src/bench/client.go:291-302`).  Its sorts are taken to keep the order
  of equal client times.  Its early success when the context is cancelled between two statuses
  (`bench/src/bench/gamelog.go:1042-1044` and `1087-1089`) and the panic on a logged purchase of an unknown item id,
  for which no dictionary was made, are not modelled.
- ValidateHonestRun: supposes that the messages of a connection arrive in the order written, that a request was sent
  before the server took it up, that an add is dated no more than a window ahead of the status written after it, and
  that every logged status is solvent, so that the format check lets it through.
- Solvency at the status time itself is not claimed: B(c) can be negative between accepting a purchase and its build
  time, because the price counts at once while adds count up to the request time.
- Counts in a received status are natural numbers; negative ones are not modelled.
- Error texts: the validators return whether they accept.  Where the benchmark ends the program on a negative
  balance, the model refuses the status.
- 64-bit integers are modelled only where they matter, in the sum of the on-sale search; a status time is assumed to
  leave room for its window.
- The floating-point digit estimate in the fast notation is a parameter, bounded as the two spare digits require.
- Dictionary iteration order is an arbitrary listing; library sorts are replaced by an insertion sort; dictionaries
  nested by item and count are keyed by the pair; the validators' memo tables of prices and powers are computed
  directly.
- Big2Exp is called by its decimal-text definition in the validators; the fast converter is proved equal to it.
- An unknown item in a purchase is refused, as in the Node.js server; the PHP purchase differs and is not modelled.
- SQL statements are atomic steps; doneJob's transaction holds its row locks, and the INSERT of a job allocates its
  id and becomes visible in one step.  Job ids are places in the queue, results and logs of jobs are not kept.
- WebSocket framing, HTTP, sessions, JSON caches, templates and the browser's drawing and number display.
- `exp2big` in `bench/src/bench/util.go` is unused and not modelled.

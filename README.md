# Mensa: a verified model of the cafeteria simulator's sequential core

The cafeteria simulator (ProgettoMensa_SO) runs one director process (`mensa`), a
number of operator processes (`operatore`) and a number of customer processes
(`utente`). They share one memory region. That region holds the configuration,
four service stations (first course, second course, coffee, cashier), the day's
and the run's statistics, and the run's state. Customers and operators
exchange requests and replies over one message queue per station. Underneath
the concurrency there is a set of sequential rules, and this project models
those rules in Dafny and proves what they guarantee:

- **Stations** (`stations.dfy`, `src/stations.c`):
  - initialising the four stations, where `-1` means unlimited portions for coffee and the cashier;
  - the start-of-day refill and the periodic top-up capped at a maximum;
  - assigning workers to station slots: one per station, every extra worker to the slowest station, ties broken in the order second course, first course, coffee, cashier;
  - adding up the leftover portions.
- **Statistics** (`statistics.dfy`, `src/stats.c`):
  - the daily reset;
  - the field-wise accumulation of a day into the totals, with lemmas about many days;
  - the guarded average-wait computation of the reports.
- **Operators** (`operatore.dfy`, `src/operatore.c`):
  - one attempt at taking a station slot, and giving it back;
  - the check-and-consume of a portion, with reply code 1 when none is left;
  - the service-time window;
  - the per-station statistics update;
  - the station-to-queue mapping;
  - the bounded pause count;
  - one turn of the operator loop.
- **Customers** (`utente.dfy`, `src/utente.c`):
  - the reply-code mapping;
  - the first course, second course, coffee, cashier sequence and its abandon rules;
  - the eating time.
- **Director** (`mensa.dfy`, `src/mensa.c`):
  - the start-of-day steps in order;
  - the day-length conversion;
  - the loop over days and the rule that ends the run.
- **Utilities** (`util.dfy`, `src/util.c`): `rand_range` and the millisecond/nanosecond `timespec` splits. C's truncating `/` and `%` are written out explicitly, as `CDiv` and `CMod`.

The shared region is modelled as classes: `Shm`, `Station` and `Stats` in
`shared.dfy` and `statistics.dfy`. Each has the fields the C code updates in
place, and each portion buffer is an `array<int>` of length 4. Every block the
C code runs under a station mutex is one method body, and so is each update of
the day's statistics. Several inputs are not generated
inside the model; they are parameters instead:

- the values `rand()` returns;
- clock readings;
- the message a station receives;
- the reply a customer gets back;
- the number of customers still waiting at the end of each day.

## Model

| member | source | states |
|---|---|---|
| Util.CDivMod | src/util.c:11 | C's truncating `/` and `%`: quotient times divisor plus remainder gives back the dividend; the remainder is smaller than the divisor and has the dividend's sign; both agree with Euclidean division for non-negative operands |
| Util.RandRange | src/util.c:6-8 | `rand_range(min, max)` is in `[min, max]` whenever `min <= max` (for a non-negative `rand()` value), and `rand_range(a, a) == a` |
| Util.MsToTimespec | src/util.c:10-13 | the split of `nanosleep_ms` adds back up: `tv_sec*1000 + tv_nsec/1000000 == ms`; `tv_nsec` is a multiple of 1000000; for `ms >= 0` the result is normalised (`0 <= tv_nsec < 1e9`) |
| Util.NsToTimespec | src/mensa.c:181-184 | the split `(ns / 1e9, ns % 1e9)` satisfies `tv_sec*1e9 + tv_nsec == ns`; for `ns >= 0` it is normalised and `tv_sec` is the floor quotient |
| Statistics.Stats.constructor | src/ipc.c:37 | a freshly zeroed statistics record holds the all-zero snapshot |
| Statistics.Stats.ResetDay | src/stats.c:10-15 | `stats_reset_day` leaves every field zero |
| Statistics.ZeroHasNoCounts | src/stats.c:10-15 | every field of the record `stats_reset_day` leaves behind reads 0 |
| Statistics.Stats.UpdateTotals | src/stats.c:20-41 | `stats_update_totals` makes the totals the field-wise sum of the old totals and the day, leaves `utenti_in_attesa` of the totals alone and does not change the day record |
| Statistics.AccumulateField | src/stats.c:20-41 | after accumulation, each accumulated field is the sum of the two inputs, and `utenti_in_attesa` keeps the totals' value |
| Statistics.AccumulateZero | src/stats.c:20-41 | accumulating a zeroed day leaves the totals unchanged |
| Statistics.AccumulateAllIsTermwiseSum | src/stats.c:20-41 | accumulating days d1..dn into the totals gives, field by field, the initial total plus the sum of that field over all days |
| Statistics.AvgWaitMs | src/stats.c:64-67 | the guarded average is 0 when nobody was served (no division by zero); otherwise it is the truncated quotient of the wait in ms by the served count, bracketed as `avg*n <= ms < (avg+1)*n` |
| Statistics.AvgWaits | src/stats.c:103-106 | the four per-station averages of a report, in the order primi, secondi, coffee, cassa, each the `AvgWaitMs` of that station's wait total, guarded as above |
| Shared.Station.constructor | src/ipc.c:37 | a zeroed station: zero counters and a four-entry portion buffer of zeros |
| Shared.Shm.constructor | src/ipc.c:23-43 | a freshly created region is well formed (four distinct stations with distinct buffers, distinct statistics records) with every counter zero: the day and run statistics are `Zero`, each station's counters are all 0 and each station's portion buffer is `[0, 0, 0, 0]`, and the scalars are 0 |
| Shared.Shm.StationOf | src/operatore.c:104-110 | a station code selects a station exactly when it is 0..3, and codes 0, 1, 2, 3 select primi, secondi, coffee and cassa |
| Shared.Shm.MsgQueue | src/operatore.c:242-250 | `get_msg_queue` maps codes 0..3 to the first-course, second-course, coffee and cashier queues, and any other code to -1 |
| Stations.TopUpTimesClosedForm | src/stations.c:74-87 | after k periodic top-ups, a menu dish that started below the maximum holds `min(start + k, max)`; every other entry keeps its value |
| Stations.TopUpNeverExceedsMax | src/stations.c:74-87 | starting from values at most the maximum, no menu dish ever exceeds the maximum however many top-ups run |
| Stations.RefillTwiceIsRefillOnce | src/stations.c:57-68 | refilling a buffer that was already refilled gives the same buffer as one refill, so after any number of days the buffers are one refill of the initial ones |
| Stations.RefillForgetsLeftovers | src/stations.c:57-68 | after the start-of-day refill the menu entries no longer depend on what was left the day before |
| Stations.LeftoversAfterRefill | src/stations.c:150-159 | right after a refill, the leftover tally over the n menu dishes is n times the refill amount |
| Stations.SumPrefixAgree | src/stations.c:150-159 | the leftover tally only depends on the first n entries |
| Stations.LeftoversNonNegative | src/stations.c:150-159 | with no negative stock, the leftover tally is not negative |
| Stations.Slowest | src/stations.c:115-135 | the station receiving extra workers has the largest average service time, and every station earlier in the order second course, first course, coffee, cashier is strictly faster |
| Stations.CapacitiesPartitionWorkers | src/stations.c:102-138 | with at least four workers, every station gets at least one slot, the four capacities sum to `NOFWORKERS`, and every station except the slowest has exactly one |
| Stations.FillArray | src/stations.c:62-63 | the refill loop sets the first n entries to the value and leaves the rest |
| Stations.TopUpArray | src/stations.c:77-80 | the top-up loop raises each of the first n entries that is below the maximum by one and leaves the rest |
| Stations.StationsInit | src/stations.c:12-52 | all four stations have zero counters; the first- and second-course buffers are all 0; the coffee and cashier buffers are all -1; `tavoli_liberi == NOFTABLESEATS` |
| Stations.RefillDay | src/stations.c:57-68 | each first- and second-course menu dish gets its configured refill; other entries and stations are untouched |
| Stations.RefillPeriodic | src/stations.c:74-87 | each first- and second-course menu dish below its maximum gains exactly one portion; the rest are untouched |
| Stations.AssignWorkers | src/stations.c:95-145 | fails exactly when `NOFWORKERS < 4`, leaving one slot per station; otherwise the capacities are those that put every extra worker on the slowest station; occupancy and the other counters are untouched |
| Stations.ComputeLeftovers | src/stations.c:150-159 | adds (does not assign) the portions left on the menu dishes to the two leftover counters; every other statistic is unchanged |
| Operatore.SpreadBelowAverage | src/operatore.c:271-272 | for a non-negative average, the spread `avg*perc/100` lies between 0 and the average |
| Operatore.ServiceWindow | src/operatore.c:257-272 | the window `[avg - avg*perc/100, avg + avg*perc/100]` is symmetric around the station's average, and for a non-negative average it is non-negative and contains the average |
| Operatore.ServiceTimeNs | src/operatore.c:255-276 | the service time is a whole number of milliseconds, expressed in ns, that lies in the station's window |
| Operatore.WaitNsMeasuresElapsedTime | src/operatore.c:285-287 | for normalised timestamps the computed wait is the true time difference, and it is non-negative exactly when the reply is not stamped before the request |
| Operatore.OnService | src/operatore.c:281-314 | every service counts one served customer; stations 0, 1 and 2 each count a dish on their own dish counter; each station 0-3 adds the wait to its own wait total and leaves the other three alone; no other field changes |
| Operatore.TakePortion | src/operatore.c:202-219 | a dish with stock `<= 0` is refused and nothing changes; otherwise that one entry drops by exactly one, so non-negative stock stays non-negative |
| Operatore.Operatore.constructor | src/operatore.c:21-47 | a new operator has its identity and station, and has taken no pause |
| Operatore.Operatore.AcquireStationPost | src/operatore.c:100-130 | an invalid station code returns 0 with no change; otherwise a slot is taken exactly when occupancy was below capacity, so `0 <= occupied <= total` is kept; `operatori_attivi` grows only when the station was empty |
| Operatore.Operatore.ReleaseStationPost | src/operatore.c:135-150 | occupancy drops by exactly one; an invalid station code changes nothing |
| Operatore.Operatore.UpdateStatsOnService | src/operatore.c:281-314 | the day's statistics become `OnService` of the old ones with the wait measured from the two timestamps |
| Operatore.Operatore.ServeUser | src/operatore.c:173-237 | an empty queue changes nothing; a course with no portion left gets code 1 and changes nothing; any other request consumes one portion (course stations only), gets code 0 with the dish, and is recorded in the statistics |
| Operatore.Operatore.HandlePause | src/operatore.c:155-168 | a pause happens exactly when `rand_range(1, 20) == 1`; it raises `pause_count` and `pause_totali` together and keeps `pause_count <= NOFPAUSE` |
| Operatore.Operatore.LoopTurn | src/operatore.c:75-95 | a slot is taken exactly when the station code is valid and the station had a free slot, and `InvalidStation` is reported exactly for an unknown code; one turn leaves every counter of the station where it was; without a slot nothing changes (no reply, statistics, pause count and stock as they were); with a slot, the reply is OK with the dish when a portion is left (or the station keeps no stock) and "dish finished" otherwise, the day's statistics are the acquire bump of `operatori_attivi`, then `OnService` for a served request, then the pauses taken, and a served dish loses exactly one portion; the pause count grows by one exactly when a slot was taken, fewer than `NOFPAUSE` pauses were taken before and `rand_range(1, 20)` drew 1, and `pause_totali` moves with it |
| Utente.StationOutcome | src/utente.c:161-177 | a reply is a success exactly when its code is 0; codes 1, 2, any other code and a failed exchange are failures |
| Utente.CassaOutcome | src/utente.c:183-210 | paying succeeds exactly when a reply arrives; its code is not looked at |
| Utente.EatMs | src/utente.c:222-223 | the eating time is 1500 ms per flag still set: between 0 and 4500, a multiple of 1500, and at least 1500 when a course was obtained |
| Utente.EatTimeSplit | src/utente.c:222-228 | the sleep split of the eating time adds back up (`tv_sec*1000 + tv_nsec/1000000 == eat_ms`) and is normalised |
| Utente.FailureClearsOnlyItsFlag | src/utente.c:88-101 | a failed first- or second-course request clears only that category's flag; the coffee flag never changes |
| Utente.NoDishMeansLeaving | src/utente.c:103-107 | the customer leaves exactly when both course flags are 0 after the two requests, and then has visited only the course stations: no coffee, cashier or table |
| Utente.TableNeedsPayment | src/utente.c:114-121 | the table is reached exactly when a course was obtained and the cashier replied; a cashier failure never reaches it |
| Utente.InitialDayShape | src/utente.c:77-124 | from the flags `user_init` sets, the first two requests are the first and second course with the drawn dishes, and a customer who eats sits 1.5, 3 or 4.5 s after paying last |
| Utente.Utente.constructor | src/utente.c:17-22 | the static initial flags: first and second course wanted, coffee not |
| Utente.Utente.UserInit | src/utente.c:65-72 | `want_primo = want_secondo = 1` and `want_coffee` is `rand_range(0, 1)`, so it is 0 or 1 |
| Utente.Utente.GoToStation | src/utente.c:129-178 | the request names the station and dish, and the outcome is success exactly for code 0 |
| Utente.Utente.UserLoop | src/utente.c:77-124 | the visits, how the day ends and the new flags are those of `PlanDay`, which has no coffee-reply argument: a coffee failure never causes abandonment; with the running flag at 0 nothing happens |
| Mensa.DayLength | src/mensa.c:179-184 | the day lasts `NNANOSECS*60*240` ns, split so that `tv_sec*1e9 + tv_nsec` gives it back, with `0 <= tv_nsec < 1e9` |
| Mensa.FirstOverload | src/mensa.c:171-192 | the result is the first day in the range whose waiting count is over the threshold: it is over, every earlier day is not, and there is no result exactly when no day is over |
| Mensa.RunSpec | src/mensa.c:167-195 | the days run are 1, 2, ... in order; the run aborts exactly when there is a day to run and fewer than four workers; it ends with cause 1 at the first overloaded day; with no overload, it ends with cause 0 after exactly `SIMDURATION` days |
| Mensa.NobodyWaitingMeansTimeout | src/mensa.c:189-191 | when no customer is waiting at any day's end (as in this repository), a non-negative threshold is never crossed and the run ends with cause 0 |
| Mensa.LaterDaysIrrelevant | src/mensa.c:189-191 | once a day overloads, the days after it do not affect the run |
| Mensa.StartNewDay | src/mensa.c:197-206 | the day is recorded, the day's statistics are zero, the worker assignment is made, and the course buffers are refilled; when the assignment fails, the refill never happens and the run stops; the running flag, the free tables and every station counter other than its capacity are unchanged |
| Mensa.RunDay | src/mensa.c:171-187 | one day: the day is recorded and started as in `StartNewDay`, and if the assignment succeeds the day's statistics are `Zero` except that the waiting count is the one the day leaves; the run totals, the cause, the running flag, the free tables and the station counters other than capacity are unchanged |
| Mensa.TerminateSimulation | src/mensa.c:217-227 | `terminazione_causa` equals the cause passed in |
| Mensa.SimulateDays | src/mensa.c:167-195 | the days started and the way the run ends are those of `RunSpec`; `terminazione_causa` records that cause; `giorno_corrente` is the last day started; the running flag, the free tables, the run totals and every station counter other than its capacity are unchanged; after the last day started, the capacities are `Capacities` (all 1 if the run aborted), the day's statistics are `Zero` with that day's waiting count (plain `Zero` if aborted), and the course buffers are the refill of the initial ones (unchanged if aborted); with no day started the statistics, capacities and buffers are as they were |

## Left out

- Inter-process communication is not modelled: shared-memory creation and attachment (`src/ipc.c`), semaphores, the readiness barrier, and `msgsnd`/`msgrcv`. A received message or a reply is an input instead, and the message sizes and `mtype` filtering are not modelled.
- Concurrency is not modelled. Each mutex-guarded block and each unguarded statistics update is one atomic method, and no interleavings between processes are considered.
- `nanosleep`, `clock_gettime`, `rand()` and `srand` are left out. Times and random values are parameters, and the sleeps are omitted.
- Configuration and menu loading (`src/config.c`) are not modelled. The configuration is a `Config` value, and the menu names are not modelled.
- Revenue and prices (`ricavo_giornaliero`, `PRICE*`, all `double`) are left out. The `ha_primo`/`ha_secondo`/`ha_coffee` request fields are declared but never read or written by any program, so they are not modelled either.
- Report formatting (`stats_print_day`, `stats_print_final`) is left out, apart from the average computation, and `end_day` only prints.
- Process plumbing in `src/mensa.c` is left out: `fork`/`execve`, `kill`/`wait`, `setenv`, `cleanup_and_exit`, `destroy_ipc`, and `main` in every program.
- Integer widths are not modelled. `int` and `long` fields are unbounded integers, so overflow of the wait totals or of `NNANOSECS*60*240` is not captured.
- The seat semaphore and `tavoli_liberi` beyond their initialisation are not modelled, and `go_to_tavolo_and_eat` only contributes its eating time.
- Operatore.Operatore.AcquireStationPost: covers one pass of the retry loop; the 5 ms sleep and the retry are left to the caller.
- Operatore.Operatore.LoopTurn: covers one turn of `operator_loop`, not the `while (simulation_running)` loop or the day-start wait.
- Utente.Utente.UserLoop: the day-start wait is not modelled; the running flag is read as it stands after that wait.
- Mensa.SimulateDays: `waiting[d - 1]` stands for whatever the other processes leave in `utenti_in_attesa` by the end of day `d`; the sleep that lets them run is left out.
- Mensa.RunDay: `left` stands for the waiting count the other processes leave during the day, and the sleep and `end_day`'s printing are left out. When the assignment fails, the C process exits inside `stations_assign_workers`, so the model writes nothing after it.
- Mensa.StartNewDay: the order of the four steps is that of the body; its contract states only the state they leave behind.
- `station_t.msgid` and the `NOFWKSEATS*` settings are never read by the core, so they are not modelled. `utenti_in_coda` is modelled: `stations_init` sets it to 0 and nothing else touches it.

## Behaviour as written

Behaviour of the code as written, which the model follows:

- `end_day` never calls `stats_update_totals`, and nothing calls `stations_refill_periodic` (`src/mensa.c:208-215`). Both are modelled as operations, but the day loop does not use them.
- The extra workers all go to one slowest station (`src/stations.c:115-138`). They are not spread in proportion to service time.
- No process ever increments `utenti_in_attesa` or `utenti_non_serviti`. As `Mensa.NobodyWaitingMeansTimeout` shows, with a non-negative threshold and at least four workers the run can only end with cause 0; with fewer than four workers it aborts on day 1.
- `simulation_running` is never set to 1 and `sem_day_start` is never posted. `UserLoop` and `LoopTurn` take the flag as given.
- A customer asks for one randomly drawn dish per course and does not try others. The customer plays a single day.
- The cashier reply's code is ignored.
- The eating time counts `want_coffee` even when the coffee request failed.
- An operator takes its pause while still holding its slot.
- Nothing calls `stations_compute_leftovers`, so the two leftover counters stay 0 for the whole run. `Stations.ComputeLeftovers` models the function, but the day loop does not use it.
- `sem_stats` is declared but never initialised or taken. `update_stats_on_service`, `pause_totali++` in `handle_pause` and `operatori_attivi++` in `acquire_station_post` (under the station's mutex only) change the day's statistics without it. The model treats each of those updates as atomic, which the code does not guarantee.
- The report averages divide each station's wait by the total `utenti_serviti`, not by that station's own count (`src/stats.c:64-67`).
- A refused dish gets a reply without `piatto_servito`. The model returns `None` for it.

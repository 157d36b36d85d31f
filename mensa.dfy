/**
 * src/mensa.c: the director's day loop. Process creation, the barrier, the
 * sleeps and the teardown are outside the model; what remains is the order of
 * the start-of-day steps and the rule that ends the run.
 */
module Mensa {
  import opened Wrappers
  import opened Util
  import opened Statistics
  import opened Shared
  import opened Stations

  /** How the director's run ends. */
  datatype RunEnd =
    | Terminated(cause: int)  // `terminate_simulation(cause)`: 0 timeout, 1 overload
    | Aborted                 // `stations_assign_workers` exited: fewer than four workers

  /** The day numbers 1, 2, ..., n. */
  function Days(n: nat): (ds: seq<int>)
    ensures |ds| == n
    ensures forall i :: 0 <= i < n ==> ds[i] == i + 1
  {
    seq(n, i => i + 1)
  }

  /** The simulated length of a day, 240 minutes of `nNanoSecs` each, split for the sleep. */
  function DayLength(cfg: Config): (t: Timespec)
    ensures t.tvSec * NSEC_PER_SEC + t.tvNsec == cfg.nNanoSecs * 60 * 240
    ensures cfg.nNanoSecs >= 0 ==> Normalized(t) && t.tvSec == cfg.nNanoSecs * 14400 / NSEC_PER_SEC
  {
    NsToTimespec(cfg.nNanoSecs * 60 * 240)
  }

  /**
   * The first day `d` in `first..last` whose end-of-day waiting count
   * `waiting[d - 1]` is over the threshold, if there is one.
   */
  function FirstOverload(waiting: seq<int>, threshold: int, first: int, last: int): (r: Option<int>)
    requires 1 <= first
    requires last <= |waiting|
    decreases last - first
    ensures r.Some? ==> first <= r.value <= last && waiting[r.value - 1] > threshold
    ensures r.Some? ==> forall i :: first - 1 <= i < r.value - 1 ==> waiting[i] <= threshold
    ensures r.None? <==> forall i :: first - 1 <= i < last ==> waiting[i] <= threshold
  {
    if first > last then None
    else if waiting[first - 1] > threshold then Some(first)
    else FirstOverload(waiting, threshold, first + 1, last)
  }

  /**
   * The run `simulate_days` performs when `waiting[d - 1]` customers are still
   * queued at the end of day `d`: the days it starts and how it ends.
   */
  function RunSpec(cfg: Config, waiting: seq<int>): (run: (seq<int>, RunEnd))
    requires cfg.simDuration <= |waiting|
    ensures run.0 == Days(|run.0|)
    ensures run.1 == Aborted <==> cfg.simDuration >= 1 && cfg.nofWorkers < 4
    ensures run.1 == Aborted ==> run.0 == [1]
    ensures run.1 == Terminated(1) ==>
              && 1 <= |run.0| <= cfg.simDuration
              && waiting[|run.0| - 1] > cfg.overloadThreshold
              && forall i :: 0 <= i < |run.0| - 1 ==> waiting[i] <= cfg.overloadThreshold
    ensures run.1 == Terminated(0) ==>
              && |run.0| == (if cfg.simDuration < 0 then 0 else cfg.simDuration)
              && forall i :: 0 <= i < cfg.simDuration ==> waiting[i] <= cfg.overloadThreshold
    ensures run.1 in {Aborted, Terminated(0), Terminated(1)}
  {
    if cfg.simDuration < 1 then ([], Terminated(0))
    else if cfg.nofWorkers < 4 then ([1], Aborted)
    else match FirstOverload(waiting, cfg.overloadThreshold, 1, cfg.simDuration)
      case Some(d) => (Days(d), Terminated(1))
      case None => (Days(cfg.simDuration), Terminated(0))
  }

  /**
   * In this repository no process ever adds to `utenti_in_attesa`, so the count
   * the reset leaves, zero, is what the director reads: with a non-negative
   * threshold and enough workers the run always lasts every configured day.
   */
  lemma NobodyWaitingMeansTimeout(cfg: Config, waiting: seq<int>)
    requires cfg.simDuration <= |waiting|
    requires forall i :: 0 <= i < cfg.simDuration ==> waiting[i] == 0
    requires cfg.overloadThreshold >= 0 && cfg.nofWorkers >= 4
    ensures RunSpec(cfg, waiting).1 == Terminated(0)
  {
  }

  /** Once a day overloads, the days after it do not change how the run ends. */
  lemma LaterDaysIrrelevant(cfg: Config, w1: seq<int>, w2: seq<int>, d: int)
    requires cfg.simDuration <= |w1| && cfg.simDuration <= |w2|
    requires 1 <= d <= cfg.simDuration
    requires w1[..d] == w2[..d] && w1[d - 1] > cfg.overloadThreshold
    ensures RunSpec(cfg, w1) == RunSpec(cfg, w2)
  {
    var thr := cfg.overloadThreshold;
    var n := cfg.simDuration;
    var r1 := FirstOverload(w1, thr, 1, n);
    var r2 := FirstOverload(w2, thr, 1, n);
    forall i | 0 <= i < d
      ensures w1[i] == w2[i]
    {
      assert w1[i] == w1[..d][i];
    }
    assert r1.Some? && r2.Some?;
  }

  /**
   * `start_new_day(day)`: record the day, reset the day's statistics, assign
   * the workers and refill the first- and second-course stations, in that
   * order. `ok` is false when the assignment exits for lack of workers; the
   * refill is then never reached.
   */
  method StartNewDay(shm: Shm, day: int) returns (ok: bool)
    requires shm.Valid()
    modifies shm, shm.statsGiorno, shm.primi, shm.secondi, shm.coffee, shm.cassa
    modifies shm.primi.porzioni, shm.secondi.porzioni
    ensures shm.giornoCorrente == day
    ensures shm.statsGiorno.Value() == Zero
    ensures shm.statsTot.Value() == old(shm.statsTot.Value())
    ensures shm.terminazioneCausa == old(shm.terminazioneCausa)
    ensures ok == (shm.cfg.nofWorkers >= 4)
    ensures Totals(shm) == if ok then Capacities(shm.cfg) else [1, 1, 1, 1]
    ensures ok ==> shm.primi.porzioni[..]
                   == FillPrefix(old(shm.primi.porzioni[..]), shm.cfg.menuPrimiCount, shm.cfg.avgRefillPrimi)
    ensures ok ==> shm.secondi.porzioni[..]
                   == FillPrefix(old(shm.secondi.porzioni[..]), shm.cfg.menuSecondiCount, shm.cfg.avgRefillSecondi)
    ensures !ok ==> unchanged(shm.primi.porzioni, shm.secondi.porzioni)
    ensures shm.simulationRunning == old(shm.simulationRunning)
    ensures shm.tavoliLiberi == old(shm.tavoliLiberi)
    ensures shm.primi.Value() == old(shm.primi.Value()).(postazioniTotali := shm.primi.postazioniTotali)
    ensures shm.secondi.Value() == old(shm.secondi.Value()).(postazioniTotali := shm.secondi.postazioniTotali)
    ensures shm.coffee.Value() == old(shm.coffee.Value()).(postazioniTotali := shm.coffee.postazioniTotali)
    ensures shm.cassa.Value() == old(shm.cassa.Value()).(postazioniTotali := shm.cassa.postazioniTotali)
  {
    shm.giornoCorrente := day;
    shm.statsGiorno.ResetDay();
    ok := AssignWorkers(shm);
    if !ok {
      return;
    }
    RefillDay(shm);
  }

  /**
   * One day of `simulate_days`: `start_new_day(day)`, then the day passes and
   * the other processes leave `left` customers queued in the day's statistics.
   * `end_day` only prints.
   */
  method RunDay(shm: Shm, day: int, left: int) returns (ok: bool)
    requires shm.Valid()
    modifies shm, shm.statsGiorno, shm.primi, shm.secondi, shm.coffee, shm.cassa
    modifies shm.primi.porzioni, shm.secondi.porzioni
    ensures shm.giornoCorrente == day
    ensures ok == (shm.cfg.nofWorkers >= 4)
    ensures shm.statsGiorno.Value() == if ok then Zero.(utentiInAttesa := left) else Zero
    ensures shm.statsTot.Value() == old(shm.statsTot.Value())
    ensures shm.terminazioneCausa == old(shm.terminazioneCausa)
    ensures Totals(shm) == if ok then Capacities(shm.cfg) else [1, 1, 1, 1]
    ensures ok ==> shm.primi.porzioni[..]
                   == FillPrefix(old(shm.primi.porzioni[..]), shm.cfg.menuPrimiCount, shm.cfg.avgRefillPrimi)
    ensures ok ==> shm.secondi.porzioni[..]
                   == FillPrefix(old(shm.secondi.porzioni[..]), shm.cfg.menuSecondiCount, shm.cfg.avgRefillSecondi)
    ensures !ok ==> unchanged(shm.primi.porzioni, shm.secondi.porzioni)
    ensures shm.simulationRunning == old(shm.simulationRunning)
    ensures shm.tavoliLiberi == old(shm.tavoliLiberi)
    ensures shm.primi.Value() == old(shm.primi.Value()).(postazioniTotali := shm.primi.postazioniTotali)
    ensures shm.secondi.Value() == old(shm.secondi.Value()).(postazioniTotali := shm.secondi.postazioniTotali)
    ensures shm.coffee.Value() == old(shm.coffee.Value()).(postazioniTotali := shm.coffee.postazioniTotali)
    ensures shm.cassa.Value() == old(shm.cassa.Value()).(postazioniTotali := shm.cassa.postazioniTotali)
  {
    ok := StartNewDay(shm, day);
    if ok {
      shm.statsGiorno.utentiInAttesa := left;
    }
  }

  /** `terminate_simulation(cause)`: record the cause; the teardown is left out. */
  method TerminateSimulation(shm: Shm, cause: int)
    modifies shm
    ensures shm.terminazioneCausa == cause
    ensures shm.giornoCorrente == old(shm.giornoCorrente)
    ensures shm.tavoliLiberi == old(shm.tavoliLiberi)
    ensures shm.simulationRunning == old(shm.simulationRunning)
  {
    shm.terminazioneCausa := cause;
  }

  /**
   * `simulate_days`: days 1 to `SIMDURATION` in turn; each starts, passes (the
   * other processes leave `waiting[day - 1]` customers queued in the day's
   * statistics), and ends with the overload check. The first overloaded day
   * terminates with cause 1; otherwise cause 0 once every day has run.
   */
  method SimulateDays(shm: Shm, waiting: seq<int>) returns (days: seq<int>, end: RunEnd)
    requires shm.Valid()
    requires shm.cfg.simDuration <= |waiting|
    modifies shm, shm.statsGiorno, shm.primi, shm.secondi, shm.coffee, shm.cassa
    modifies shm.primi.porzioni, shm.secondi.porzioni
    ensures (days, end) == RunSpec(shm.cfg, waiting)
    ensures end.Terminated? ==> shm.terminazioneCausa == end.cause
    ensures end == Aborted ==> shm.terminazioneCausa == old(shm.terminazioneCausa)
    ensures |days| > 0 ==> shm.giornoCorrente == days[|days| - 1]
    ensures shm.statsTot.Value() == old(shm.statsTot.Value())
    ensures shm.simulationRunning == old(shm.simulationRunning)
    ensures shm.tavoliLiberi == old(shm.tavoliLiberi)
    ensures shm.primi.Value() == old(shm.primi.Value()).(postazioniTotali := shm.primi.postazioniTotali)
    ensures shm.secondi.Value() == old(shm.secondi.Value()).(postazioniTotali := shm.secondi.postazioniTotali)
    ensures shm.coffee.Value() == old(shm.coffee.Value()).(postazioniTotali := shm.coffee.postazioniTotali)
    ensures shm.cassa.Value() == old(shm.cassa.Value()).(postazioniTotali := shm.cassa.postazioniTotali)
    ensures |days| == 0 ==>
              && shm.statsGiorno.Value() == old(shm.statsGiorno.Value())
              && Totals(shm) == old(Totals(shm))
              && unchanged(shm.primi.porzioni, shm.secondi.porzioni)
    ensures |days| > 0 ==>
              && Totals(shm) == (if end == Aborted then [1, 1, 1, 1] else Capacities(shm.cfg))
              && shm.statsGiorno.Value()
                 == (if end == Aborted then Zero else Zero.(utentiInAttesa := waiting[|days| - 1]))
    ensures end == Aborted ==> unchanged(shm.primi.porzioni, shm.secondi.porzioni)
    ensures |days| > 0 && end != Aborted ==>
              && shm.primi.porzioni[..]
                 == FillPrefix(old(shm.primi.porzioni[..]), shm.cfg.menuPrimiCount, shm.cfg.avgRefillPrimi)
              && shm.secondi.porzioni[..]
                 == FillPrefix(old(shm.secondi.porzioni[..]), shm.cfg.menuSecondiCount, shm.cfg.avgRefillSecondi)
  {
    var n := shm.cfg.simDuration;
    var thr := shm.cfg.overloadThreshold;
    days := [];
    var day := 1;
    while day <= n
      invariant 1 <= day <= (if n < 1 then 1 else n + 1)
      invariant days == Days(day - 1)
      invariant day > 1 ==> shm.cfg.nofWorkers >= 4 && shm.giornoCorrente == day - 1
      invariant FirstOverload(waiting, thr, 1, n) == FirstOverload(waiting, thr, day, n)
      invariant shm.terminazioneCausa == old(shm.terminazioneCausa)
      invariant shm.statsTot.Value() == old(shm.statsTot.Value())
      invariant shm.simulationRunning == old(shm.simulationRunning)
      invariant shm.tavoliLiberi == old(shm.tavoliLiberi)
      invariant shm.primi.Value() == old(shm.primi.Value()).(postazioniTotali := shm.primi.postazioniTotali)
      invariant shm.secondi.Value() == old(shm.secondi.Value()).(postazioniTotali := shm.secondi.postazioniTotali)
      invariant shm.coffee.Value() == old(shm.coffee.Value()).(postazioniTotali := shm.coffee.postazioniTotali)
      invariant shm.cassa.Value() == old(shm.cassa.Value()).(postazioniTotali := shm.cassa.postazioniTotali)
      invariant day == 1 ==>
                  && shm.statsGiorno.Value() == old(shm.statsGiorno.Value())
                  && Totals(shm) == old(Totals(shm))
                  && unchanged(shm.primi.porzioni, shm.secondi.porzioni)
      invariant day > 1 ==>
                  && shm.statsGiorno.Value() == Zero.(utentiInAttesa := waiting[day - 2])
                  && Totals(shm) == Capacities(shm.cfg)
                  && shm.primi.porzioni[..]
                     == FillPrefix(old(shm.primi.porzioni[..]), shm.cfg.menuPrimiCount, shm.cfg.avgRefillPrimi)
                  && shm.secondi.porzioni[..]
                     == FillPrefix(old(shm.secondi.porzioni[..]), shm.cfg.menuSecondiCount, shm.cfg.avgRefillSecondi)
    {
      ghost var primiBefore, secondiBefore := shm.primi.porzioni[..], shm.secondi.porzioni[..];
      var ok := RunDay(shm, day, waiting[day - 1]);
      days := days + [day];
      assert days == Days(day);
      if !ok {
        end := Aborted;
        return;
      }
      RefillTwiceIsRefillOnce(old(shm.primi.porzioni[..]), primiBefore, shm.cfg.menuPrimiCount, shm.cfg.avgRefillPrimi);
      RefillTwiceIsRefillOnce(old(shm.secondi.porzioni[..]), secondiBefore, shm.cfg.menuSecondiCount, shm.cfg.avgRefillSecondi);
      if shm.statsGiorno.utentiInAttesa > thr {
        TerminateSimulation(shm, 1);
        end := Terminated(1);
        return;
      }
      day := day + 1;
    }
    TerminateSimulation(shm, 0);
    end := Terminated(0);
  }
}

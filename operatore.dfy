/**
 * src/operatore.c: one operator process. Each block the C code runs under a
 * station mutex is one method body here. The message queue is outside the
 * model: the request an operator receives (or `None` when the queue is empty)
 * and the clock reading it stamps on the reply are parameters, and the reply is
 * returned instead of sent. Sleeps are left out.
 */
module Operatore {
  import opened Wrappers
  import opened Util
  import opened Statistics
  import opened Shared

  /** The three ways one pass through `acquire_station_post` can end. */
  datatype AcquireOutcome =
    | Acquired        // a slot was free and is now taken
    | StationFull     // all slots were taken; the C loop sleeps 5 ms and tries again
    | InvalidStation  // unknown station code; the C function returns 0

  /** The spread, in percent, of a station's service time around its average. */
  function Perc(t: int): int {
    if t == COFFEE then 80 else if t == CASSA then 20 else 50
  }

  lemma MulBelow(x: int, y: int, z: int)
    requires x >= 0 && 0 <= y <= z
    ensures 0 <= x * y <= x * z
  {
  }

  /** For a non-negative average the spread `avg * perc / 100` lies between 0 and the average. */
  lemma SpreadBelowAverage(avg: int, p: int)
    requires avg >= 0 && 0 <= p <= 100
    ensures 0 <= CDiv(avg * p, 100) <= avg
  {
    var n := avg * p;
    MulBelow(avg, p, 100);
    CDivMod(n, 100);
    assert CDiv(n, 100) == n / 100;
    assert n / 100 * 100 <= n <= avg * 100;
  }

  /**
   * The window `[avg - avg*perc/100, avg + avg*perc/100]` (in ms) from which
   * `get_service_time_ns` draws; symmetric around the average, and for a
   * non-negative average it is non-negative and contains the average.
   */
  function ServiceWindow(cfg: Config, t: int): (w: (int, int))
    ensures w.1 - cfg.AvgSrvc(t) == cfg.AvgSrvc(t) - w.0
    ensures cfg.AvgSrvc(t) >= 0 ==> 0 <= w.0 <= cfg.AvgSrvc(t) <= w.1
  {
    var avg := cfg.AvgSrvc(t);
    if avg >= 0 then SpreadBelowAverage(avg, Perc(t)); (avg - CDiv(avg * Perc(t), 100), avg + CDiv(avg * Perc(t), 100))
    else (avg - CDiv(avg * Perc(t), 100), avg + CDiv(avg * Perc(t), 100))
  }

  /**
   * `get_service_time_ns` with the `rand()` value `r`: a whole number of
   * milliseconds, inside the station's window whenever its average is not
   * negative, converted to nanoseconds.
   */
  function ServiceTimeNs(cfg: Config, t: int, r: nat): (ns: int)
    ensures ns % NSEC_PER_MSEC == 0
    ensures cfg.AvgSrvc(t) >= 0 ==>
              ServiceWindow(cfg, t).0 <= ns / NSEC_PER_MSEC <= ServiceWindow(cfg, t).1
  {
    var w := ServiceWindow(cfg, t);
    RandRange(w.0, w.1, r) * NSEC_PER_MSEC
  }

  /** The wait `update_stats_on_service` computes from the two timestamps. */
  function WaitNs(arrivo: Timespec, servizio: Timespec): int {
    (servizio.tvSec - arrivo.tvSec) * NSEC_PER_SEC + (servizio.tvNsec - arrivo.tvNsec)
  }

  /**
   * For normalised timestamps the computed wait is the true difference, and it
   * is non-negative exactly when the reply is not stamped before the request.
   */
  lemma WaitNsMeasuresElapsedTime(arrivo: Timespec, servizio: Timespec)
    requires Normalized(arrivo) && Normalized(servizio)
    ensures WaitNs(arrivo, servizio) >= 0 <==>
              (arrivo.tvSec < servizio.tvSec
               || (arrivo.tvSec == servizio.tvSec && arrivo.tvNsec <= servizio.tvNsec))
    ensures WaitNs(arrivo, servizio)
            == (servizio.tvSec * NSEC_PER_SEC + servizio.tvNsec) - (arrivo.tvSec * NSEC_PER_SEC + arrivo.tvNsec)
  {
  }

  /**
   * The day's statistics after `update_stats_on_service` at station `t`: every
   * service counts one served customer; stations 0-2 also count a dish and add
   * the wait to their own total, the cashier only adds the wait.
   */
  function OnService(s: Snapshot, t: int, wait: int): (r: Snapshot)
    ensures r.utentiServiti == s.utentiServiti + 1
    ensures r.piattiPrimiServiti == s.piattiPrimiServiti + (if t == PRIMI then 1 else 0)
    ensures r.piattiSecondiServiti == s.piattiSecondiServiti + (if t == SECONDI then 1 else 0)
    ensures r.piattiCoffeeServiti == s.piattiCoffeeServiti + (if t == COFFEE then 1 else 0)
    ensures forall u :: 0 <= u <= 3 ==> WaitOf(r, u) == WaitOf(s, u) + (if u == t then wait else 0)
    ensures r.tempoAttesaPrimiNs + r.tempoAttesaSecondiNs + r.tempoAttesaCoffeeNs + r.tempoAttesaCassaNs
            == s.tempoAttesaPrimiNs + s.tempoAttesaSecondiNs + s.tempoAttesaCoffeeNs + s.tempoAttesaCassaNs
               + (if 0 <= t <= 3 then wait else 0)
    ensures r.(utentiServiti := s.utentiServiti,
               piattiPrimiServiti := s.piattiPrimiServiti,
               piattiSecondiServiti := s.piattiSecondiServiti,
               piattiCoffeeServiti := s.piattiCoffeeServiti,
               tempoAttesaPrimiNs := s.tempoAttesaPrimiNs,
               tempoAttesaSecondiNs := s.tempoAttesaSecondiNs,
               tempoAttesaCoffeeNs := s.tempoAttesaCoffeeNs,
               tempoAttesaCassaNs := s.tempoAttesaCassaNs) == s
  {
    var r :=
      if t == PRIMI then
        s.(tempoAttesaPrimiNs := s.tempoAttesaPrimiNs + wait,
           piattiPrimiServiti := s.piattiPrimiServiti + 1)
      else if t == SECONDI then
        s.(tempoAttesaSecondiNs := s.tempoAttesaSecondiNs + wait,
           piattiSecondiServiti := s.piattiSecondiServiti + 1)
      else if t == COFFEE then
        s.(tempoAttesaCoffeeNs := s.tempoAttesaCoffeeNs + wait,
           piattiCoffeeServiti := s.piattiCoffeeServiti + 1)
      else if t == CASSA then
        s.(tempoAttesaCassaNs := s.tempoAttesaCassaNs + wait)
      else s;
    r.(utentiServiti := r.utentiServiti + 1)
  }

  /** The wait total that belongs to station `t`. */
  function WaitOf(s: Snapshot, t: int): int
    requires 0 <= t <= 3
  {
    [s.tempoAttesaPrimiNs, s.tempoAttesaSecondiNs, s.tempoAttesaCoffeeNs, s.tempoAttesaCassaNs][t]
  }

  /**
   * The portion check and consumption `serve_user` runs under the station mutex:
   * with no portion left (`<= 0`) nothing changes; otherwise exactly that dish
   * loses one portion. Non-negative stock therefore stays non-negative.
   */
  method TakePortion(porzioni: array<int>, piatto: int) returns (available: bool)
    requires 0 <= piatto < porzioni.Length
    modifies porzioni
    ensures available == (old(porzioni[piatto]) > 0)
    ensures porzioni[..] == if available then old(porzioni[..])[piatto := old(porzioni[piatto]) - 1]
                            else old(porzioni[..])
    ensures (forall i :: 0 <= i < porzioni.Length ==> old(porzioni[i]) >= 0) ==>
              forall i :: 0 <= i < porzioni.Length ==> porzioni[i] >= 0
  {
    if porzioni[piatto] <= 0 {
      return false;
    }
    porzioni[piatto] := porzioni[piatto] - 1;
    available := true;
  }

  /** An operator process: its shared region, its identity and station, and its pause count. */
  class Operatore {
    const shm: Shm
    const operatorId: int
    const stationType: int
    var pauseCount: int

    /** The most pauses allowed, `NOFPAUSE`, read as zero when it is negative. */
    function MaxPauses(): int {
      if shm.cfg.nofPause > 0 then shm.cfg.nofPause else 0
    }

    ghost predicate Valid()
      reads this
    {
      shm.Valid() && 0 <= pauseCount <= MaxPauses()
    }

    /** The portion buffer the operator checks: only first- and second-course stations have one. */
    function Inventory(): Option<array<int>> {
      if stationType == PRIMI then Some(shm.primi.porzioni)
      else if stationType == SECONDI then Some(shm.secondi.porzioni)
      else None
    }

    function InventoryFrame(): set<object> {
      match Inventory()
      case Some(a) => {a}
      case None => {}
    }

    /** The process state after `main` has parsed its arguments: no pause taken yet. */
    constructor (shm: Shm, id: int, stationType: int)
      requires shm.Valid()
      ensures Valid()
      ensures this.shm == shm && operatorId == id && this.stationType == stationType
      ensures pauseCount == 0
    {
      this.shm := shm;
      operatorId := id;
      this.stationType := stationType;
      pauseCount := 0;
    }

    /**
     * One pass through the loop of `acquire_station_post`. A slot is taken only
     * when occupancy was strictly below capacity, so `occupied <= total` is kept;
     * the day's active-operator count grows only when the station was empty.
     */
    method AcquireStationPost() returns (r: AcquireOutcome)
      requires Valid()
      modifies shm.StationFrame(stationType), shm.statsGiorno
      ensures shm.StationOf(stationType).None? ==> r == InvalidStation && unchanged(shm.statsGiorno)
      ensures shm.StationOf(stationType).Some? ==>
        var st := shm.StationOf(stationType).value;
        && r != InvalidStation
        && (r == Acquired <==> old(st.postazioniOccupate < st.postazioniTotali))
        && st.Value() == old(st.Value()).(postazioniOccupate :=
             old(st.postazioniOccupate) + if r == Acquired then 1 else 0)
        && shm.statsGiorno.Value() == old(shm.statsGiorno.Value()).(operatoriAttivi :=
             old(shm.statsGiorno.operatoriAttivi)
             + if r == Acquired && old(st.postazioniOccupate) == 0 then 1 else 0)
        && (old(0 <= st.postazioniOccupate <= st.postazioniTotali) ==>
              0 <= st.postazioniOccupate <= st.postazioniTotali)
    {
      var so := shm.StationOf(stationType);
      if so.None? {
        return InvalidStation;
      }
      var st := so.value;
      if st.postazioniOccupate < st.postazioniTotali {
        if st.postazioniOccupate == 0 {
          shm.statsGiorno.operatoriAttivi := shm.statsGiorno.operatoriAttivi + 1;
        }
        st.postazioniOccupate := st.postazioniOccupate + 1;
        return Acquired;
      }
      r := StationFull;
    }

    /** `release_station_post`: one slot is given back; an unknown station code changes nothing. */
    method ReleaseStationPost()
      requires Valid()
      modifies shm.StationFrame(stationType)
      ensures shm.StationOf(stationType).Some? ==>
        var st := shm.StationOf(stationType).value;
        st.Value() == old(st.Value()).(postazioniOccupate := old(st.postazioniOccupate) - 1)
    {
      var so := shm.StationOf(stationType);
      if so.None? {
        return;
      }
      var st := so.value;
      st.postazioniOccupate := st.postazioniOccupate - 1;
    }

    /** `update_stats_on_service` for a request answered at time `servizio`. */
    method UpdateStatsOnService(req: Request, servizio: Timespec)
      requires Valid()
      modifies shm.statsGiorno
      ensures shm.statsGiorno.Value()
              == OnService(old(shm.statsGiorno.Value()), stationType, WaitNs(req.tArrivo, servizio))
    {
      var day := shm.statsGiorno;
      var waitNs := WaitNs(req.tArrivo, servizio);
      if stationType == PRIMI {
        day.tempoAttesaPrimiNs := day.tempoAttesaPrimiNs + waitNs;
        day.piattiPrimiServiti := day.piattiPrimiServiti + 1;
      } else if stationType == SECONDI {
        day.tempoAttesaSecondiNs := day.tempoAttesaSecondiNs + waitNs;
        day.piattiSecondiServiti := day.piattiSecondiServiti + 1;
      } else if stationType == COFFEE {
        day.tempoAttesaCoffeeNs := day.tempoAttesaCoffeeNs + waitNs;
        day.piattiCoffeeServiti := day.piattiCoffeeServiti + 1;
      } else if stationType == CASSA {
        day.tempoAttesaCassaNs := day.tempoAttesaCassaNs + waitNs;
      }
      day.utentiServiti := day.utentiServiti + 1;
    }

    /**
     * `serve_user` after its non-blocking receive: `None` stands for an empty
     * queue. A first- or second-course request for a dish with no portion left
     * gets reply code 1 and changes nothing else; any other request consumes a
     * portion (first and second courses only), gets reply code 0 with the dish,
     * and is recorded in the day's statistics.
     */
    method ServeUser(req: Option<Request>, servizio: Timespec) returns (res: Option<Response>)
      requires Valid()
      requires req.Some? && Inventory().Some? ==> 0 <= req.value.piattoScelto < MAX_PRIMI_TYPES
      modifies InventoryFrame(), shm.statsGiorno
      ensures req.None? ==> res.None? && unchanged(shm.statsGiorno)
      ensures req.None? && Inventory().Some? ==> unchanged(Inventory().value)
      ensures req.Some? && Inventory().Some? ==>
        var q, inv := req.value, Inventory().value;
        if old(inv[q.piattoScelto]) <= 0 then
          && res == Some(Response(q.userId, ESITO_PIATTO_TERMINATO, None))
          && inv[..] == old(inv[..])
          && unchanged(shm.statsGiorno)
        else
          && res == Some(Response(q.userId, ESITO_OK, Some(q.piattoScelto)))
          && inv[..] == old(inv[..])[q.piattoScelto := old(inv[q.piattoScelto]) - 1]
          && shm.statsGiorno.Value()
             == OnService(old(shm.statsGiorno.Value()), stationType, WaitNs(q.tArrivo, servizio))
      ensures req.Some? && Inventory().None? ==>
        var q := req.value;
        && res == Some(Response(q.userId, ESITO_OK, Some(q.piattoScelto)))
        && shm.statsGiorno.Value()
           == OnService(old(shm.statsGiorno.Value()), stationType, WaitNs(q.tArrivo, servizio))
    {
      if req.None? {
        return None;
      }
      var q := req.value;
      var inv := Inventory();
      if inv.Some? {
        var available := TakePortion(inv.value, q.piattoScelto);
        if !available {
          return Some(Response(q.userId, ESITO_PIATTO_TERMINATO, None));
        }
      }
      res := Some(Response(q.userId, ESITO_OK, Some(q.piattoScelto)));
      UpdateStatsOnService(q, servizio);
    }

    /**
     * `handle_pause`, reached only while `pause_count < NOFPAUSE`: with the
     * `rand()` value `r`, a pause is taken when `rand_range(1, 20)` is 1, and it
     * raises the operator's count and the day's total together.
     */
    method HandlePause(r: nat) returns (paused: bool)
      requires Valid() && pauseCount < shm.cfg.nofPause
      modifies this, shm.statsGiorno
      ensures Valid()
      ensures paused == (RandRange(1, 20, r) == 1)
      ensures pauseCount == old(pauseCount) + if paused then 1 else 0
      ensures shm.statsGiorno.Value() == old(shm.statsGiorno.Value()).(pauseTotali :=
                old(shm.statsGiorno.pauseTotali) + if paused then 1 else 0)
    {
      if RandRange(1, 20, r) != 1 {
        return false;
      }
      pauseCount := pauseCount + 1;
      shm.statsGiorno.pauseTotali := shm.statsGiorno.pauseTotali + 1;
      paused := true;
    }

    /**
     * One turn of the `while (simulation_running)` loop of `operator_loop`, with
     * one pass of the slot acquisition: if a slot is taken, one request is
     * served, a pause may follow while fewer than `NOFPAUSE` were taken, and the
     * slot is released. Occupancy and capacity end where they started, the pause
     * count never passes `NOFPAUSE`, and the day's pause total moves with it.
     */
    method LoopTurn(req: Option<Request>, servizio: Timespec, r: nat)
      returns (acq: AcquireOutcome, res: Option<Response>)
      requires Valid()
      requires req.Some? && Inventory().Some? ==> 0 <= req.value.piattoScelto < MAX_PRIMI_TYPES
      modifies this, shm.StationFrame(stationType), InventoryFrame(), shm.statsGiorno
      ensures Valid()
      ensures acq != Acquired ==>
                && res.None?
                && shm.statsGiorno.Value() == old(shm.statsGiorno.Value())
                && pauseCount == old(pauseCount)
      ensures shm.StationOf(stationType).None? <==> acq == InvalidStation
      ensures shm.StationOf(stationType).Some? ==>
                var st := shm.StationOf(stationType).value;
                && (acq == Acquired <==> old(st.postazioniOccupate < st.postazioniTotali))
                && st.Value() == old(st.Value())
      ensures acq != Acquired && Inventory().Some? ==> unchanged(Inventory().value)
      ensures pauseCount == old(pauseCount)
                + if acq == Acquired && old(pauseCount) < shm.cfg.nofPause && RandRange(1, 20, r) == 1
                  then 1 else 0
      ensures shm.statsGiorno.pauseTotali - old(shm.statsGiorno.pauseTotali)
              == pauseCount - old(pauseCount)
      ensures acq == Acquired ==> shm.StationOf(stationType).Some?
      ensures acq == Acquired ==>
                var st := shm.StationOf(stationType).value;
                var acquired := old(shm.statsGiorno.Value()).(operatoriAttivi :=
                  old(shm.statsGiorno.operatoriAttivi) + if old(st.postazioniOccupate) == 0 then 1 else 0);
                var served := req.Some? && (Inventory().None? || old(Inventory().value[req.value.piattoScelto]) > 0);
                var afterService :=
                  if served then OnService(acquired, stationType, WaitNs(req.value.tArrivo, servizio)) else acquired;
                && shm.statsGiorno.Value()
                   == afterService.(pauseTotali := afterService.pauseTotali + (pauseCount - old(pauseCount)))
                && res == (if req.None? then None
                           else if served then Some(Response(req.value.userId, ESITO_OK, Some(req.value.piattoScelto)))
                           else Some(Response(req.value.userId, ESITO_PIATTO_TERMINATO, None)))
                && (Inventory().Some? ==>
                      Inventory().value[..]
                      == if served then old(Inventory().value[..])[req.value.piattoScelto :=
                                          old(Inventory().value[req.value.piattoScelto]) - 1]
                         else old(Inventory().value[..]))
    {
      res := None;
      acq := AcquireStationPost();
      if acq != Acquired {
        return;
      }
      res := ServeUser(req, servizio);
      if pauseCount < shm.cfg.nofPause {
        var _ := HandlePause(r);
      }
      ReleaseStationPost();
    }
  }
}

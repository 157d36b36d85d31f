/**
 * include/shared_structs.h: the shared-memory region (`shm_t`), the station
 * record (`station_t`) and the request/reply messages. Semaphores, the startup
 * barrier and the menu name strings are not part of this model.
 */
module Shared {
  import opened Wrappers
  import opened Util
  import opened Statistics

  const MAX_PRIMI_TYPES := 4
  const MAX_SECONDI_TYPES := 4
  const MAX_COFFEE_TYPES := 4

  /** Station codes, as carried in `richiesta_tipo` and passed to the operator program. */
  const PRIMI := 0
  const SECONDI := 1
  const COFFEE := 2
  const CASSA := 3

  /** Reply codes (`esito`). */
  const ESITO_OK := 0
  const ESITO_PIATTO_TERMINATO := 1
  const ESITO_NESSUN_PIATTO := 2

  /**
   * The configuration the loader writes into shared memory before the run.
   * The menu counts are what the menu reader stores; it stops at four dishes per
   * category, which is what `Valid` records.
   */
  datatype Config = Config(
    nofWorkers: int,
    nofUsers: int,
    simDuration: int,
    nNanoSecs: int,
    overloadThreshold: int,
    nofTableSeats: int,
    avgRefillPrimi: int,
    avgRefillSecondi: int,
    maxPorzioniPrimi: int,
    maxPorzioniSecondi: int,
    avgSrvcPrimi: int,
    avgSrvcMainCourse: int,
    avgSrvcCoffee: int,
    avgSrvcCassa: int,
    nofPause: int,
    menuPrimiCount: int,
    menuSecondiCount: int,
    menuCoffeeCount: int)
  {
    /** The configured average service time of a station (0 for an unknown code). */
    function AvgSrvc(t: int): int {
      if t == PRIMI then avgSrvcPrimi
      else if t == SECONDI then avgSrvcMainCourse
      else if t == COFFEE then avgSrvcCoffee
      else if t == CASSA then avgSrvcCassa
      else 0
    }

    predicate Valid() {
      && 0 <= menuPrimiCount <= MAX_PRIMI_TYPES
      && 0 <= menuSecondiCount <= MAX_SECONDI_TYPES
      && 0 <= menuCoffeeCount <= MAX_COFFEE_TYPES
    }
  }

  /** `msg_request_t` as an operator reads it (the `ha_*` flags are never set in this version). */
  datatype Request = Request(mtype: int, userId: int, richiestaTipo: int, piattoScelto: int, tArrivo: Timespec)

  /** `msg_response_t`; `piattoServito` is `None` where the C code leaves it unset. */
  datatype Response = Response(mtype: int, esito: int, piattoServito: Option<int>)

  /** The counters of a `station_t` at one moment (its portions live in an array). */
  datatype Counters = Counters(
    postazioniTotali: int,
    postazioniOccupate: int,
    tempoAttesaTotaleNs: int,
    utentiServiti: int,
    utentiInCoda: int)

  /** A `station_t`: capacity and occupancy counters and a fixed buffer of portions. */
  class Station {
    var postazioniTotali: int
    var postazioniOccupate: int
    const porzioni: array<int>
    var tempoAttesaTotaleNs: int
    var utentiServiti: int
    var utentiInCoda: int

    function Value(): Counters
      reads this
    {
      Counters(postazioniTotali, postazioniOccupate, tempoAttesaTotaleNs, utentiServiti, utentiInCoda)
    }

    /** A station in zero-filled shared memory. */
    constructor ()
      ensures fresh(porzioni) && porzioni.Length == MAX_PRIMI_TYPES
      ensures porzioni[..] == [0, 0, 0, 0]
      ensures Value() == Counters(0, 0, 0, 0, 0)
    {
      porzioni := new int[MAX_PRIMI_TYPES](_ => 0);
      postazioniTotali, postazioniOccupate := 0, 0;
      tempoAttesaTotaleNs, utentiServiti, utentiInCoda := 0, 0, 0;
    }
  }

  /** The shared-memory region `shm_t`. */
  class Shm {
    const cfg: Config
    const primi: Station
    const secondi: Station
    const coffee: Station
    const cassa: Station
    const statsTot: Stats
    const statsGiorno: Stats
    const msgidPrimi: int
    const msgidSecondi: int
    const msgidCoffee: int
    const msgidCassa: int
    var tavoliLiberi: int
    var giornoCorrente: int
    var terminazioneCausa: int
    var simulationRunning: int

    /** The four stations and their buffers are distinct objects of the right size. */
    predicate Valid() {
      && cfg.Valid()
      && primi != secondi && primi != coffee && primi != cassa
      && secondi != coffee && secondi != cassa && coffee != cassa
      && primi.porzioni != secondi.porzioni && primi.porzioni != coffee.porzioni
      && primi.porzioni != cassa.porzioni && secondi.porzioni != coffee.porzioni
      && secondi.porzioni != cassa.porzioni && coffee.porzioni != cassa.porzioni
      && primi.porzioni.Length == MAX_PRIMI_TYPES
      && secondi.porzioni.Length == MAX_SECONDI_TYPES
      && coffee.porzioni.Length == MAX_COFFEE_TYPES
      && cassa.porzioni.Length == MAX_PRIMI_TYPES
      && statsTot != statsGiorno
    }

    /**
     * The region as the coordinator creates it: zero-filled, with the loaded
     * configuration and the four message-queue identifiers.
     */
    constructor (cfg: Config, qPrimi: int, qSecondi: int, qCoffee: int, qCassa: int)
      requires cfg.Valid()
      ensures Valid() && this.cfg == cfg
      ensures fresh(primi) && fresh(secondi) && fresh(coffee) && fresh(cassa)
      ensures fresh(primi.porzioni) && fresh(secondi.porzioni)
      ensures fresh(coffee.porzioni) && fresh(cassa.porzioni)
      ensures fresh(statsTot) && fresh(statsGiorno)
      ensures statsTot.Value() == Zero && statsGiorno.Value() == Zero
      ensures primi.Value() == Counters(0, 0, 0, 0, 0) && primi.porzioni[..] == [0, 0, 0, 0]
      ensures secondi.Value() == Counters(0, 0, 0, 0, 0) && secondi.porzioni[..] == [0, 0, 0, 0]
      ensures coffee.Value() == Counters(0, 0, 0, 0, 0) && coffee.porzioni[..] == [0, 0, 0, 0]
      ensures cassa.Value() == Counters(0, 0, 0, 0, 0) && cassa.porzioni[..] == [0, 0, 0, 0]
      ensures msgidPrimi == qPrimi && msgidSecondi == qSecondi
      ensures msgidCoffee == qCoffee && msgidCassa == qCassa
      ensures tavoliLiberi == 0 && giornoCorrente == 0
      ensures terminazioneCausa == 0 && simulationRunning == 0
    {
      this.cfg := cfg;
      primi := new Station();
      secondi := new Station();
      coffee := new Station();
      cassa := new Station();
      statsTot := new Stats();
      statsGiorno := new Stats();
      msgidPrimi, msgidSecondi, msgidCoffee, msgidCassa := qPrimi, qSecondi, qCoffee, qCassa;
      tavoliLiberi, giornoCorrente, terminazioneCausa, simulationRunning := 0, 0, 0, 0;
    }

    /** The station a `station_type` code selects; any other code selects none. */
    function StationOf(t: int): (s: Option<Station>)
      ensures s.Some? <==> 0 <= t <= 3
      ensures 0 <= t <= 3 ==> s == Some([primi, secondi, coffee, cassa][t])
    {
      if t == PRIMI then Some(primi)
      else if t == SECONDI then Some(secondi)
      else if t == COFFEE then Some(coffee)
      else if t == CASSA then Some(cassa)
      else None
    }

    /** The objects an operation on station `t` may change. */
    function StationFrame(t: int): set<object> {
      match StationOf(t)
      case Some(s) => {s}
      case None => {}
    }

    /**
     * `get_msg_queue(station_type)`, written identically in the operator and the
     * customer programs: the queue of the station, or -1 for an unknown code.
     */
    function MsgQueue(t: int): (q: int)
      ensures 0 <= t <= 3 ==> q == [msgidPrimi, msgidSecondi, msgidCoffee, msgidCassa][t]
      ensures !(0 <= t <= 3) ==> q == -1
    {
      match t
      case 0 => msgidPrimi
      case 1 => msgidSecondi
      case 2 => msgidCoffee
      case 3 => msgidCassa
      case _ => -1
    }
  }
}

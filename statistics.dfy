/**
 * src/stats.c over the `stats_t` record of include/shared_structs.h: the daily
 * reset, the field-wise accumulation of a day into the run totals, and the
 * guarded average wait printed by the two reports. The revenue field
 * (`ricavo_giornaliero`, a `double`) is not part of this model.
 */
module Statistics {
  import opened Util

  /** The value of a `stats_t` record at one moment. */
  datatype Snapshot = Snapshot(
    utentiServiti: int,
    utentiNonServiti: int,
    piattiPrimiServiti: int,
    piattiSecondiServiti: int,
    piattiCoffeeServiti: int,
    piattiPrimiAvanzati: int,
    piattiSecondiAvanzati: int,
    tempoAttesaPrimiNs: int,
    tempoAttesaSecondiNs: int,
    tempoAttesaCoffeeNs: int,
    tempoAttesaCassaNs: int,
    operatoriAttivi: int,
    pauseTotali: int,
    utentiInAttesa: int)

  /** The record as `memset(s, 0, sizeof(stats_t))` leaves it. */
  const Zero := Snapshot(0, 0, 0, 0, 0, 0, 0, 0, 0, 0, 0, 0, 0, 0)

  /** Names of the fields, so that a property can be stated once for all of them. */
  datatype Field =
    | UtentiServiti | UtentiNonServiti
    | PiattiPrimiServiti | PiattiSecondiServiti | PiattiCoffeeServiti
    | PiattiPrimiAvanzati | PiattiSecondiAvanzati
    | TempoAttesaPrimiNs | TempoAttesaSecondiNs | TempoAttesaCoffeeNs | TempoAttesaCassaNs
    | OperatoriAttivi | PauseTotali | UtentiInAttesa

  function Get(s: Snapshot, f: Field): int {
    match f
    case UtentiServiti => s.utentiServiti
    case UtentiNonServiti => s.utentiNonServiti
    case PiattiPrimiServiti => s.piattiPrimiServiti
    case PiattiSecondiServiti => s.piattiSecondiServiti
    case PiattiCoffeeServiti => s.piattiCoffeeServiti
    case PiattiPrimiAvanzati => s.piattiPrimiAvanzati
    case PiattiSecondiAvanzati => s.piattiSecondiAvanzati
    case TempoAttesaPrimiNs => s.tempoAttesaPrimiNs
    case TempoAttesaSecondiNs => s.tempoAttesaSecondiNs
    case TempoAttesaCoffeeNs => s.tempoAttesaCoffeeNs
    case TempoAttesaCassaNs => s.tempoAttesaCassaNs
    case OperatoriAttivi => s.operatoriAttivi
    case PauseTotali => s.pauseTotali
    case UtentiInAttesa => s.utentiInAttesa
  }

  /** Every field of the zeroed record reads 0. */
  lemma ZeroHasNoCounts()
    ensures forall f :: Get(Zero, f) == 0
  {
  }

  /** `stats_update_totals` adds every field of the day except the waiting-customer count. */
  predicate Accumulated(f: Field) {
    f != UtentiInAttesa
  }

  /** The totals after `stats_update_totals(&tot, &day)`. */
  function Accumulate(tot: Snapshot, day: Snapshot): Snapshot {
    tot.(
      utentiServiti := tot.utentiServiti + day.utentiServiti,
      utentiNonServiti := tot.utentiNonServiti + day.utentiNonServiti,
      piattiPrimiServiti := tot.piattiPrimiServiti + day.piattiPrimiServiti,
      piattiSecondiServiti := tot.piattiSecondiServiti + day.piattiSecondiServiti,
      piattiCoffeeServiti := tot.piattiCoffeeServiti + day.piattiCoffeeServiti,
      piattiPrimiAvanzati := tot.piattiPrimiAvanzati + day.piattiPrimiAvanzati,
      piattiSecondiAvanzati := tot.piattiSecondiAvanzati + day.piattiSecondiAvanzati,
      tempoAttesaPrimiNs := tot.tempoAttesaPrimiNs + day.tempoAttesaPrimiNs,
      tempoAttesaSecondiNs := tot.tempoAttesaSecondiNs + day.tempoAttesaSecondiNs,
      tempoAttesaCoffeeNs := tot.tempoAttesaCoffeeNs + day.tempoAttesaCoffeeNs,
      tempoAttesaCassaNs := tot.tempoAttesaCassaNs + day.tempoAttesaCassaNs,
      operatoriAttivi := tot.operatoriAttivi + day.operatoriAttivi,
      pauseTotali := tot.pauseTotali + day.pauseTotali)
  }

  /** One accumulation, field by field: a sum for the accumulated fields, the old total otherwise. */
  lemma AccumulateField(tot: Snapshot, day: Snapshot, f: Field)
    ensures Get(Accumulate(tot, day), f) == Get(tot, f) + (if Accumulated(f) then Get(day, f) else 0)
  {
  }

  /** Accumulating a freshly reset day leaves the totals as they were. */
  lemma AccumulateZero(tot: Snapshot)
    ensures Accumulate(tot, Zero) == tot
  {
  }

  /** The totals after calling `stats_update_totals` once per day, in order. */
  function AccumulateAll(tot: Snapshot, days: seq<Snapshot>): Snapshot
    decreases |days|
  {
    if days == [] then tot else AccumulateAll(Accumulate(tot, days[0]), days[1..])
  }

  /** The sum of one field over a sequence of days. */
  function SumField(days: seq<Snapshot>, f: Field): int
    decreases |days|
  {
    if days == [] then 0 else Get(days[0], f) + SumField(days[1..], f)
  }

  /**
   * Running the accumulation over days d1..dn gives, field by field, the initial
   * total plus the sum of that field over all the days; the waiting-customer count
   * keeps its initial value.
   */
  lemma {:induction false} AccumulateAllIsTermwiseSum(tot: Snapshot, days: seq<Snapshot>, f: Field)
    ensures Get(AccumulateAll(tot, days), f)
            == Get(tot, f) + (if Accumulated(f) then SumField(days, f) else 0)
    decreases |days|
  {
    if days != [] {
      AccumulateAllIsTermwiseSum(Accumulate(tot, days[0]), days[1..], f);
      AccumulateField(tot, days[0], f);
    }
  }

  /**
   * The average wait in milliseconds that `stats_print_day` and `stats_print_final`
   * print for one station: `ns / 1000000 / utenti_serviti` when the served count
   * is non-zero, else 0, so the division never has a zero divisor.
   */
  function AvgWaitMs(ns: int, served: int): (avg: int)
    ensures served == 0 ==> avg == 0
    ensures served > 0 && ns >= 0 ==>
              0 <= avg * served <= ns / NSEC_PER_MSEC < (avg + 1) * served
  {
    if served != 0 then
      CDivMod(ns, NSEC_PER_MSEC);
      CDivMod(CDiv(ns, NSEC_PER_MSEC), served);
      CDiv(CDiv(ns, NSEC_PER_MSEC), served)
    else 0
  }

  /** The four averages a report prints, in the order primi, secondi, coffee, cassa. */
  function AvgWaits(s: Snapshot): (avgs: seq<int>)
    ensures |avgs| == 4
    ensures s.utentiServiti == 0 ==> avgs == [0, 0, 0, 0]
    ensures forall i :: 0 <= i < 4 ==>
              avgs[i] == AvgWaitMs([s.tempoAttesaPrimiNs, s.tempoAttesaSecondiNs,
                                    s.tempoAttesaCoffeeNs, s.tempoAttesaCassaNs][i], s.utentiServiti)
  {
    [AvgWaitMs(s.tempoAttesaPrimiNs, s.utentiServiti),
     AvgWaitMs(s.tempoAttesaSecondiNs, s.utentiServiti),
     AvgWaitMs(s.tempoAttesaCoffeeNs, s.utentiServiti),
     AvgWaitMs(s.tempoAttesaCassaNs, s.utentiServiti)]
  }

  /** A `stats_t` record in shared memory, updated in place. */
  class Stats {
    var utentiServiti: int
    var utentiNonServiti: int
    var piattiPrimiServiti: int
    var piattiSecondiServiti: int
    var piattiCoffeeServiti: int
    var piattiPrimiAvanzati: int
    var piattiSecondiAvanzati: int
    var tempoAttesaPrimiNs: int
    var tempoAttesaSecondiNs: int
    var tempoAttesaCoffeeNs: int
    var tempoAttesaCassaNs: int
    var operatoriAttivi: int
    var pauseTotali: int
    var utentiInAttesa: int

    function Value(): Snapshot
      reads this
    {
      Snapshot(utentiServiti, utentiNonServiti,
               piattiPrimiServiti, piattiSecondiServiti, piattiCoffeeServiti,
               piattiPrimiAvanzati, piattiSecondiAvanzati,
               tempoAttesaPrimiNs, tempoAttesaSecondiNs, tempoAttesaCoffeeNs, tempoAttesaCassaNs,
               operatoriAttivi, pauseTotali, utentiInAttesa)
    }

    /** A record in freshly created (zero-filled) shared memory. */
    constructor ()
      ensures Value() == Zero
    {
      utentiServiti, utentiNonServiti := 0, 0;
      piattiPrimiServiti, piattiSecondiServiti, piattiCoffeeServiti := 0, 0, 0;
      piattiPrimiAvanzati, piattiSecondiAvanzati := 0, 0;
      tempoAttesaPrimiNs, tempoAttesaSecondiNs, tempoAttesaCoffeeNs, tempoAttesaCassaNs := 0, 0, 0, 0;
      operatoriAttivi, pauseTotali, utentiInAttesa := 0, 0, 0;
    }

    /** `stats_reset_day`: every field becomes zero. */
    method ResetDay()
      modifies this
      ensures utentiServiti == utentiNonServiti == piattiPrimiServiti == piattiSecondiServiti
              == piattiCoffeeServiti == piattiPrimiAvanzati == piattiSecondiAvanzati
              == tempoAttesaPrimiNs == tempoAttesaSecondiNs == tempoAttesaCoffeeNs
              == tempoAttesaCassaNs == operatoriAttivi == pauseTotali == utentiInAttesa == 0
      ensures Value() == Zero
    {
      utentiServiti := 0;
      utentiNonServiti := 0;
      piattiPrimiServiti := 0;
      piattiSecondiServiti := 0;
      piattiCoffeeServiti := 0;
      piattiPrimiAvanzati := 0;
      piattiSecondiAvanzati := 0;
      tempoAttesaPrimiNs := 0;
      tempoAttesaSecondiNs := 0;
      tempoAttesaCoffeeNs := 0;
      tempoAttesaCassaNs := 0;
      operatoriAttivi := 0;
      pauseTotali := 0;
      utentiInAttesa := 0;
    }

    /**
     * `stats_update_totals(this, day)`: each listed field gets `+=` the day's
     * field. Each C statement reads the day's field before it writes the same
     * field of the totals, and no statement reads a field an earlier one wrote,
     * so all the additions can be made at once; the result is the same even
     * when `day` is this very record.
     */
    method UpdateTotals(day: Stats)
      modifies this
      ensures Value() == Accumulate(old(Value()), old(day.Value()))
      ensures utentiInAttesa == old(utentiInAttesa)
      ensures day != this ==> unchanged(day)
    {
      var d := day.Value();
      utentiServiti, utentiNonServiti :=
        utentiServiti + d.utentiServiti, utentiNonServiti + d.utentiNonServiti;
      piattiPrimiServiti, piattiSecondiServiti, piattiCoffeeServiti :=
        piattiPrimiServiti + d.piattiPrimiServiti, piattiSecondiServiti + d.piattiSecondiServiti,
        piattiCoffeeServiti + d.piattiCoffeeServiti;
      piattiPrimiAvanzati, piattiSecondiAvanzati :=
        piattiPrimiAvanzati + d.piattiPrimiAvanzati, piattiSecondiAvanzati + d.piattiSecondiAvanzati;
      tempoAttesaPrimiNs, tempoAttesaSecondiNs :=
        tempoAttesaPrimiNs + d.tempoAttesaPrimiNs, tempoAttesaSecondiNs + d.tempoAttesaSecondiNs;
      tempoAttesaCoffeeNs, tempoAttesaCassaNs :=
        tempoAttesaCoffeeNs + d.tempoAttesaCoffeeNs, tempoAttesaCassaNs + d.tempoAttesaCassaNs;
      operatoriAttivi, pauseTotali :=
        operatoriAttivi + d.operatoriAttivi, pauseTotali + d.pauseTotali;
    }
  }
}

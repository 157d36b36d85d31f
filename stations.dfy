/**
 * src/stations.c: setting up the four stations, the start-of-day and periodic
 * refills, the daily assignment of operator slots, and the leftover tally. As in
 * the C code, each operation takes the shared region and updates it in place.
 */
module Stations {
  import opened Shared
  import opened Statistics

  /* ---------- specification of the portion buffers ---------- */

  /** The first `n` entries set to `v`, the rest as they were. */
  function FillPrefix(s: seq<int>, n: int, v: int): (r: seq<int>)
    ensures |r| == |s|
  {
    seq(|s|, i requires 0 <= i < |s| => if i < n then v else s[i])
  }

  /** One periodic top-up: each of the first `n` entries below `max` grows by one. */
  function TopUp(s: seq<int>, n: int, max: int): (r: seq<int>)
    ensures |r| == |s|
  {
    seq(|s|, i requires 0 <= i < |s| => if i < n && s[i] < max then s[i] + 1 else s[i])
  }

  /** `k` top-ups in a row. */
  function TopUpTimes(s: seq<int>, n: int, max: int, k: nat): (r: seq<int>)
    ensures |r| == |s|
    decreases k
  {
    if k == 0 then s else TopUp(TopUpTimes(s, n, max, k - 1), n, max)
  }

  /** The sum of the first `n` entries. */
  function SumPrefix(s: seq<int>, n: nat): int
    requires n <= |s|
  {
    if n == 0 then 0 else SumPrefix(s, n - 1) + s[n - 1]
  }

  function Min(a: int, b: int): int {
    if a <= b then a else b
  }

  /**
   * After `k` top-ups an entry of the menu that started below the maximum is
   * `min(start + k, max)`; every other entry is where it started.
   */
  lemma {:induction false} TopUpTimesClosedForm(s: seq<int>, n: int, max: int, k: nat, i: int)
    requires 0 <= i < |s|
    ensures TopUpTimes(s, n, max, k)[i]
            == if i < n && s[i] < max then Min(s[i] + k, max) else s[i]
    decreases k
  {
    if k > 0 {
      TopUpTimesClosedForm(s, n, max, k - 1, i);
    }
  }

  /** Starting at or below the maximum, no number of top-ups takes a dish above it. */
  lemma TopUpNeverExceedsMax(s: seq<int>, n: int, max: int, k: nat)
    requires forall i :: 0 <= i < |s| && i < n ==> s[i] <= max
    ensures forall i :: 0 <= i < |s| && i < n ==> TopUpTimes(s, n, max, k)[i] <= max
  {
    forall i | 0 <= i < |s| && i < n
      ensures TopUpTimes(s, n, max, k)[i] <= max
    {
      TopUpTimesClosedForm(s, n, max, k, i);
    }
  }

  /** The start-of-day level does not depend on what was left the day before. */
  lemma RefillForgetsLeftovers(s1: seq<int>, s2: seq<int>, n: nat, v: int)
    requires |s1| == |s2| && n <= |s1|
    ensures FillPrefix(s1, n, v)[..n] == FillPrefix(s2, n, v)[..n]
  {
  }

  /**
   * Refilling a buffer that is either the original or its own refill gives the
   * refill of the original: each start of day overwrites the previous one.
   */
  lemma RefillTwiceIsRefillOnce(s: seq<int>, t: seq<int>, n: int, v: int)
    requires t == s || t == FillPrefix(s, n, v)
    ensures FillPrefix(t, n, v) == FillPrefix(s, n, v)
  {
  }

  /** With nothing served after the refill, the leftover tally is `count * refill`. */
  lemma {:induction false} LeftoversAfterRefill(s: seq<int>, n: nat, v: int)
    requires n <= |s|
    ensures SumPrefix(FillPrefix(s, n, v), n) == n * v
  {
    if n > 0 {
      var f := FillPrefix(s, n, v);
      var g := FillPrefix(s, n - 1, v);
      assert forall i :: 0 <= i < n - 1 ==> f[i] == g[i];
      SumPrefixAgree(f, g, n - 1);
      LeftoversAfterRefill(s, n - 1, v);
    }
  }

  /** The sum of a prefix depends only on the entries in it. */
  lemma {:induction false} SumPrefixAgree(a: seq<int>, b: seq<int>, n: nat)
    requires n <= |a| && n <= |b|
    requires forall i :: 0 <= i < n ==> a[i] == b[i]
    ensures SumPrefix(a, n) == SumPrefix(b, n)
  {
    if n > 0 {
      SumPrefixAgree(a, b, n - 1);
    }
  }

  /** Non-negative portions give a non-negative leftover tally. */
  lemma {:induction false} LeftoversNonNegative(s: seq<int>, n: nat)
    requires n <= |s|
    requires forall i :: 0 <= i < n ==> s[i] >= 0
    ensures SumPrefix(s, n) >= 0
  {
    if n > 0 {
      LeftoversNonNegative(s, n - 1);
    }
  }

  /* ---------- specification of the slot assignment ---------- */

  /** Rank in the tie-break order: secondi, then primi, then coffee, then cassa. */
  function Priority(t: int): int
    requires 0 <= t <= 3
  {
    [1, 0, 2, 3][t]
  }

  /**
   * The station that receives every extra worker: one with the largest average
   * service time, and among those the first in the tie-break order.
   */
  function Slowest(cfg: Config): (k: int)
    ensures 0 <= k <= 3
    ensures forall t :: 0 <= t <= 3 ==> cfg.AvgSrvc(t) <= cfg.AvgSrvc(k)
    ensures forall t :: 0 <= t <= 3 && Priority(t) < Priority(k) ==> cfg.AvgSrvc(t) < cfg.AvgSrvc(k)
  {
    if cfg.avgSrvcMainCourse >= cfg.avgSrvcPrimi
       && cfg.avgSrvcMainCourse >= cfg.avgSrvcCoffee
       && cfg.avgSrvcMainCourse >= cfg.avgSrvcCassa then SECONDI
    else if cfg.avgSrvcPrimi >= cfg.avgSrvcCoffee && cfg.avgSrvcPrimi >= cfg.avgSrvcCassa then PRIMI
    else if cfg.avgSrvcCoffee >= cfg.avgSrvcCassa then COFFEE
    else CASSA
  }

  /** One slot per station, plus `extra` slots at station `k`. */
  function ExtraTo(k: int, extra: int): (caps: seq<int>)
    ensures |caps| == 4
  {
    seq(4, i => if i == k then 1 + extra else 1)
  }

  /** The capacities `stations_assign_workers` gives, in station-code order. */
  function Capacities(cfg: Config): (caps: seq<int>)
    ensures |caps| == 4
  {
    ExtraTo(Slowest(cfg), cfg.nofWorkers - 4)
  }

  /**
   * With at least four workers every station gets at least one slot, the
   * capacities add up to the number of workers, and every station other than the
   * slowest has exactly one slot.
   */
  lemma CapacitiesPartitionWorkers(cfg: Config)
    requires cfg.nofWorkers >= 4
    ensures forall t :: 0 <= t < 4 ==> Capacities(cfg)[t] >= 1
    ensures Capacities(cfg)[0] + Capacities(cfg)[1] + Capacities(cfg)[2] + Capacities(cfg)[3]
            == cfg.nofWorkers
    ensures forall t :: 0 <= t < 4 && t != Slowest(cfg) ==> Capacities(cfg)[t] == 1
  {
  }

  /** The `postazioni_totali` of the four stations, in station-code order. */
  function Totals(shm: Shm): (caps: seq<int>)
    reads shm.primi, shm.secondi, shm.coffee, shm.cassa
    ensures |caps| == 4
  {
    [shm.primi.postazioniTotali, shm.secondi.postazioniTotali,
     shm.coffee.postazioniTotali, shm.cassa.postazioniTotali]
  }

  /* ---------- the operations ---------- */

  /** Writes `v` into the first `n` entries of a portion buffer. */
  method FillArray(a: array<int>, n: int, v: int)
    requires 0 <= n <= a.Length
    modifies a
    ensures a[..] == FillPrefix(old(a[..]), n, v)
  {
    for i := 0 to n
      invariant forall j :: 0 <= j < i ==> a[j] == v
      invariant forall j :: i <= j < a.Length ==> a[j] == old(a[j])
    {
      a[i] := v;
    }
  }

  /** One periodic pass over a portion buffer. */
  method TopUpArray(a: array<int>, n: int, max: int)
    requires 0 <= n <= a.Length
    modifies a
    ensures a[..] == TopUp(old(a[..]), n, max)
  {
    for i := 0 to n
      invariant forall j :: 0 <= j < i ==> a[j] == if old(a[j]) < max then old(a[j]) + 1 else old(a[j])
      invariant forall j :: i <= j < a.Length ==> a[j] == old(a[j])
    {
      if a[i] < max {
        a[i] := a[i] + 1;
      }
    }
  }

  /**
   * `stations_init`: every station has no slots and no occupants and zeroed
   * counters; first and second courses have no portions; coffee and cashier
   * hold -1 (unlimited) everywhere; all table seats are free.
   */
  method StationsInit(shm: Shm)
    requires shm.Valid()
    modifies shm, shm.primi, shm.secondi, shm.coffee, shm.cassa
    modifies shm.primi.porzioni, shm.secondi.porzioni, shm.coffee.porzioni, shm.cassa.porzioni
    ensures shm.primi.Value() == Counters(0, 0, 0, 0, 0)
    ensures shm.secondi.Value() == Counters(0, 0, 0, 0, 0)
    ensures shm.coffee.Value() == Counters(0, 0, 0, 0, 0)
    ensures shm.cassa.Value() == Counters(0, 0, 0, 0, 0)
    ensures shm.primi.porzioni[..] == [0, 0, 0, 0]
    ensures shm.secondi.porzioni[..] == [0, 0, 0, 0]
    ensures shm.coffee.porzioni[..] == [-1, -1, -1, -1]
    ensures shm.cassa.porzioni[..] == [-1, -1, -1, -1]
    ensures shm.tavoliLiberi == shm.cfg.nofTableSeats
    ensures shm.giornoCorrente == old(shm.giornoCorrente)
    ensures shm.terminazioneCausa == old(shm.terminazioneCausa)
    ensures shm.simulationRunning == old(shm.simulationRunning)
  {
    shm.primi.postazioniTotali, shm.primi.postazioniOccupate := 0, 0;
    FillArray(shm.primi.porzioni, MAX_PRIMI_TYPES, 0);
    shm.primi.tempoAttesaTotaleNs, shm.primi.utentiServiti, shm.primi.utentiInCoda := 0, 0, 0;

    shm.secondi.postazioniTotali, shm.secondi.postazioniOccupate := 0, 0;
    FillArray(shm.secondi.porzioni, MAX_SECONDI_TYPES, 0);
    shm.secondi.tempoAttesaTotaleNs, shm.secondi.utentiServiti, shm.secondi.utentiInCoda := 0, 0, 0;

    shm.coffee.postazioniTotali, shm.coffee.postazioniOccupate := 0, 0;
    FillArray(shm.coffee.porzioni, MAX_COFFEE_TYPES, -1);
    shm.coffee.tempoAttesaTotaleNs, shm.coffee.utentiServiti, shm.coffee.utentiInCoda := 0, 0, 0;

    shm.cassa.postazioniTotali, shm.cassa.postazioniOccupate := 0, 0;
    FillArray(shm.cassa.porzioni, MAX_PRIMI_TYPES, -1);
    shm.cassa.tempoAttesaTotaleNs, shm.cassa.utentiServiti, shm.cassa.utentiInCoda := 0, 0, 0;

    shm.tavoliLiberi := shm.cfg.nofTableSeats;
  }

  /**
   * `stations_refill_day`: each dish on the first- and second-course menus gets
   * the configured start-of-day portions; other entries and stations are untouched.
   */
  method RefillDay(shm: Shm)
    requires shm.Valid()
    modifies shm.primi.porzioni, shm.secondi.porzioni
    ensures shm.primi.porzioni[..]
            == FillPrefix(old(shm.primi.porzioni[..]), shm.cfg.menuPrimiCount, shm.cfg.avgRefillPrimi)
    ensures shm.secondi.porzioni[..]
            == FillPrefix(old(shm.secondi.porzioni[..]), shm.cfg.menuSecondiCount, shm.cfg.avgRefillSecondi)
  {
    FillArray(shm.primi.porzioni, shm.cfg.menuPrimiCount, shm.cfg.avgRefillPrimi);
    FillArray(shm.secondi.porzioni, shm.cfg.menuSecondiCount, shm.cfg.avgRefillSecondi);
  }

  /**
   * `stations_refill_periodic`: each first- and second-course dish on the menu
   * that is below its maximum gains one portion.
   */
  method RefillPeriodic(shm: Shm)
    requires shm.Valid()
    modifies shm.primi.porzioni, shm.secondi.porzioni
    ensures shm.primi.porzioni[..]
            == TopUp(old(shm.primi.porzioni[..]), shm.cfg.menuPrimiCount, shm.cfg.maxPorzioniPrimi)
    ensures shm.secondi.porzioni[..]
            == TopUp(old(shm.secondi.porzioni[..]), shm.cfg.menuSecondiCount, shm.cfg.maxPorzioniSecondi)
  {
    TopUpArray(shm.primi.porzioni, shm.cfg.menuPrimiCount, shm.cfg.maxPorzioniPrimi);
    TopUpArray(shm.secondi.porzioni, shm.cfg.menuSecondiCount, shm.cfg.maxPorzioniSecondi);
  }

  /**
   * `stations_assign_workers`: every station first gets one slot; with fewer than
   * four workers the C code exits (`ok` false) leaving those ones; otherwise each
   * remaining worker goes to the slowest station. Occupancy and the other
   * counters are untouched.
   */
  method AssignWorkers(shm: Shm) returns (ok: bool)
    requires shm.Valid()
    modifies shm.primi, shm.secondi, shm.coffee, shm.cassa
    ensures ok == (shm.cfg.nofWorkers >= 4)
    ensures Totals(shm) == if ok then Capacities(shm.cfg) else [1, 1, 1, 1]
    ensures shm.primi.Value() == old(shm.primi.Value()).(postazioniTotali := shm.primi.postazioniTotali)
    ensures shm.secondi.Value() == old(shm.secondi.Value()).(postazioniTotali := shm.secondi.postazioniTotali)
    ensures shm.coffee.Value() == old(shm.coffee.Value()).(postazioniTotali := shm.coffee.postazioniTotali)
    ensures shm.cassa.Value() == old(shm.cassa.Value()).(postazioniTotali := shm.cassa.postazioniTotali)
  {
    var workers := shm.cfg.nofWorkers;

    shm.primi.postazioniTotali := 1;
    shm.secondi.postazioniTotali := 1;
    shm.coffee.postazioniTotali := 1;
    shm.cassa.postazioniTotali := 1;

    workers := workers - 4;

    if workers < 0 {
      return false;
    }

    while workers > 0
      invariant 0 <= workers <= shm.cfg.nofWorkers - 4
      invariant Totals(shm) == ExtraTo(Slowest(shm.cfg), shm.cfg.nofWorkers - 4 - workers)
      invariant shm.primi.Value() == old(shm.primi.Value()).(postazioniTotali := shm.primi.postazioniTotali)
      invariant shm.secondi.Value() == old(shm.secondi.Value()).(postazioniTotali := shm.secondi.postazioniTotali)
      invariant shm.coffee.Value() == old(shm.coffee.Value()).(postazioniTotali := shm.coffee.postazioniTotali)
      invariant shm.cassa.Value() == old(shm.cassa.Value()).(postazioniTotali := shm.cassa.postazioniTotali)
    {
      ghost var before := Totals(shm);
      ghost var k := Slowest(shm.cfg);
      if shm.cfg.avgSrvcMainCourse >= shm.cfg.avgSrvcPrimi
         && shm.cfg.avgSrvcMainCourse >= shm.cfg.avgSrvcCoffee
         && shm.cfg.avgSrvcMainCourse >= shm.cfg.avgSrvcCassa {
        shm.secondi.postazioniTotali := shm.secondi.postazioniTotali + 1;
        assert k == SECONDI;
      } else if shm.cfg.avgSrvcPrimi >= shm.cfg.avgSrvcCoffee
                && shm.cfg.avgSrvcPrimi >= shm.cfg.avgSrvcCassa {
        shm.primi.postazioniTotali := shm.primi.postazioniTotali + 1;
        assert k == PRIMI;
      } else if shm.cfg.avgSrvcCoffee >= shm.cfg.avgSrvcCassa {
        shm.coffee.postazioniTotali := shm.coffee.postazioniTotali + 1;
        assert k == COFFEE;
      } else {
        shm.cassa.postazioniTotali := shm.cassa.postazioniTotali + 1;
        assert k == CASSA;
      }
      assert Totals(shm) == before[k := before[k] + 1];
      workers := workers - 1;
    }
    ok := true;
  }

  /**
   * `stations_compute_leftovers`: adds (it does not assign) the portions left on
   * the first- and second-course menus to the day's leftover counters; nothing
   * else in the day's statistics changes.
   */
  method ComputeLeftovers(shm: Shm)
    requires shm.Valid()
    modifies shm.statsGiorno
    ensures shm.statsGiorno.Value() == old(shm.statsGiorno.Value()).(
              piattiPrimiAvanzati := old(shm.statsGiorno.piattiPrimiAvanzati)
                + SumPrefix(shm.primi.porzioni[..], shm.cfg.menuPrimiCount),
              piattiSecondiAvanzati := old(shm.statsGiorno.piattiSecondiAvanzati)
                + SumPrefix(shm.secondi.porzioni[..], shm.cfg.menuSecondiCount))
  {
    var day := shm.statsGiorno;
    for i := 0 to shm.cfg.menuPrimiCount
      invariant day.Value() == old(day.Value()).(
                  piattiPrimiAvanzati := old(day.piattiPrimiAvanzati) + SumPrefix(shm.primi.porzioni[..], i))
    {
      day.piattiPrimiAvanzati := day.piattiPrimiAvanzati + shm.primi.porzioni[i];
    }
    for i := 0 to shm.cfg.menuSecondiCount
      invariant day.Value() == old(day.Value()).(
                  piattiPrimiAvanzati := old(day.piattiPrimiAvanzati)
                    + SumPrefix(shm.primi.porzioni[..], shm.cfg.menuPrimiCount),
                  piattiSecondiAvanzati := old(day.piattiSecondiAvanzati) + SumPrefix(shm.secondi.porzioni[..], i))
    {
      day.piattiSecondiAvanzati := day.piattiSecondiAvanzati + shm.secondi.porzioni[i];
    }
  }
}

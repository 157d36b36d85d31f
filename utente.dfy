/**
 * src/utente.c: one customer process. The three `want_` flags are the static
 * state the C code updates step by step. Each station visit is a request and a
 * reply on that station's queue; here the reply is an input: `Some(esito)` when
 * one arrived, `None` when the send or the receive failed. The `rand()` values
 * and the running flag are inputs too; the seat semaphore and the sleeps are left out.
 */
module Utente {
  import opened Wrappers
  import opened Util
  import opened Shared

  /** Milliseconds of eating per dish. */
  const EAT_MS_PER_DISH := 1500

  /** One request the customer sends: the station and the dish asked for. */
  datatype Visit = Visit(station: int, piatto: int)

  /** How the customer's day ends. */
  datatype DayEnd =
    | NotRunning       // the simulation was over at the day-start wait
    | NoDish           // neither a first nor a second course: the customer leaves
    | Unpaid           // the cashier exchange failed: no table
    | Ate(eatMs: int)  // paid, then sat for this many milliseconds

  datatype UserDay = UserDay(visits: seq<Visit>, end: DayEnd)

  /** The three flags `want_primo`, `want_secondo`, `want_coffee`. */
  datatype Wants = Wants(primo: int, secondo: int, coffee: int) {
    predicate Valid() {
      primo in {0, 1} && secondo in {0, 1} && coffee in {0, 1}
    }
  }

  /**
   * The reply handling of `go_to_station`: success exactly for `esito == 0`;
   * codes 1 and 2, any other code and a failed exchange are failures.
   */
  function StationOutcome(reply: Option<int>): (ok: bool)
    ensures ok <==> reply == Some(ESITO_OK)
  {
    match reply
    case None => false
    case Some(esito) =>
      if esito == ESITO_OK then true
      else if esito == ESITO_PIATTO_TERMINATO then false
      else if esito == ESITO_NESSUN_PIATTO then false
      else false
  }

  /** `go_to_cassa` succeeds whenever a reply arrives; its code is not looked at. */
  function CassaOutcome(reply: Option<int>): (ok: bool)
    ensures ok <==> reply.Some?
  {
    reply.Some?
  }

  /** The eating time of `go_to_tavolo_and_eat`: 1500 ms for each flag still set. */
  function EatMs(w: Wants): (ms: int)
    ensures w.Valid() ==> 0 <= ms <= 3 * EAT_MS_PER_DISH && ms % EAT_MS_PER_DISH == 0
    ensures w.Valid() && (w.primo == 1 || w.secondo == 1) ==> ms >= EAT_MS_PER_DISH
  {
    (w.primo + w.secondo + w.coffee) * EAT_MS_PER_DISH
  }

  /**
   * The sleep the customer takes at the table, split as `nanosleep_ms` splits:
   * seconds and nanoseconds that add back up to the eating time.
   */
  lemma EatTimeSplit(w: Wants)
    requires w.Valid()
    ensures var t := MsToTimespec(EatMs(w));
            && t.tvSec * 1000 + t.tvNsec / NSEC_PER_MSEC == EatMs(w)
            && Normalized(t)
  {
    var t := MsToTimespec(EatMs(w));
    CDivMod(t.tvNsec, NSEC_PER_MSEC);
  }

  /**
   * The day `user_loop` plays out, from the flags at its start, the running flag
   * seen after the day-start wait, the two dishes drawn, and the replies of the
   * first-course, second-course and cashier stations. The coffee reply is not
   * an argument: the C code ignores it. The result also holds the flags after the day.
   */
  function PlanDay(w: Wants, running: int, piattoPrimo: int, piattoSecondo: int,
                   replyPrimo: Option<int>, replySecondo: Option<int>, replyCassa: Option<int>)
    : (Wants, UserDay)
  {
    if running == 0 then (w, UserDay([], NotRunning))
    else
      var v1 := if w.primo != 0 then [Visit(PRIMI, piattoPrimo)] else [];
      var primo := if w.primo != 0 && !StationOutcome(replyPrimo) then 0 else w.primo;
      var v2 := v1 + if w.secondo != 0 then [Visit(SECONDI, piattoSecondo)] else [];
      var secondo := if w.secondo != 0 && !StationOutcome(replySecondo) then 0 else w.secondo;
      var after := Wants(primo, secondo, w.coffee);
      if primo == 0 && secondo == 0 then (after, UserDay(v2, NoDish))
      else
        var v3 := v2 + (if w.coffee != 0 then [Visit(COFFEE, 0)] else []) + [Visit(CASSA, 0)];
        if !CassaOutcome(replyCassa) then (after, UserDay(v3, Unpaid))
        else (after, UserDay(v3, Ate(EatMs(after))))
  }

  /**
   * A failed first- or second-course request clears that category's flag and no
   * other; a successful one, or one never made, leaves it as it was; the coffee
   * flag never changes.
   */
  lemma FailureClearsOnlyItsFlag(w: Wants, running: int, pp: int, ps: int,
                                 rp: Option<int>, rs: Option<int>, rc: Option<int>)
    requires running != 0
    ensures var after := PlanDay(w, running, pp, ps, rp, rs, rc).0;
            && after.primo == (if w.primo != 0 && !StationOutcome(rp) then 0 else w.primo)
            && after.secondo == (if w.secondo != 0 && !StationOutcome(rs) then 0 else w.secondo)
            && after.coffee == w.coffee
  {
  }

  /**
   * With neither flag set after the two course requests, the customer leaves:
   * no coffee, no cashier, no table. The day ends that way only in that case.
   */
  lemma NoDishMeansLeaving(w: Wants, running: int, pp: int, ps: int,
                           rp: Option<int>, rs: Option<int>, rc: Option<int>)
    ensures var (after, day) := PlanDay(w, running, pp, ps, rp, rs, rc);
            && (day.end == NoDish <==> running != 0 && after.primo == 0 && after.secondo == 0)
            && (day.end == NoDish ==> forall v :: v in day.visits ==> v.station in {PRIMI, SECONDI})
  {
  }

  /** The table is reached exactly when a course was obtained and the cashier replied. */
  lemma TableNeedsPayment(w: Wants, running: int, pp: int, ps: int,
                          rp: Option<int>, rs: Option<int>, rc: Option<int>)
    ensures var (after, day) := PlanDay(w, running, pp, ps, rp, rs, rc);
            day.end.Ate? <==> running != 0 && (after.primo != 0 || after.secondo != 0) && rc.Some?
    ensures rc.None? ==> !PlanDay(w, running, pp, ps, rp, rs, rc).1.end.Ate?
  {
  }

  /**
   * Starting from the flags `user_init` sets, a customer who eats eats for 1.5,
   * 3 or 4.5 seconds, and the visits follow the fixed order first course,
   * second course, coffee, cashier.
   */
  lemma InitialDayShape(coffee: int, running: int, pp: int, ps: int,
                        rp: Option<int>, rs: Option<int>, rc: Option<int>)
    requires coffee in {0, 1}
    ensures var (after, day) := PlanDay(Wants(1, 1, coffee), running, pp, ps, rp, rs, rc);
            && (running != 0 ==>
                  |day.visits| >= 2 && day.visits[0] == Visit(PRIMI, pp) && day.visits[1] == Visit(SECONDI, ps))
            && (day.end.Ate? ==>
                  day.end.eatMs in {1500, 3000, 4500} && day.visits[|day.visits| - 1] == Visit(CASSA, 0))
  {
  }

  /** A customer process: its shared region, its identity and its three flags. */
  class Utente {
    const shm: Shm
    const userId: int
    var wantPrimo: int
    var wantSecondo: int
    var wantCoffee: int

    function Flags(): Wants
      reads this
    {
      Wants(wantPrimo, wantSecondo, wantCoffee)
    }

    /** The process after `main` parsed its argument, with the static initialisers. */
    constructor (shm: Shm, id: int)
      ensures this.shm == shm && userId == id
      ensures Flags() == Wants(1, 1, 0)
    {
      this.shm := shm;
      userId := id;
      wantPrimo, wantSecondo, wantCoffee := 1, 1, 0;
    }

    /** `user_init`: both courses wanted; coffee wanted when `rand_range(0, 1)` gives 1. */
    method UserInit(r: nat)
      modifies this
      ensures Flags() == Wants(1, 1, RandRange(0, 1, r))
      ensures Flags().Valid()
    {
      wantPrimo := 1;
      wantSecondo := 1;
      wantCoffee := RandRange(0, 1, r);
    }

    /**
     * `go_to_station` with its exchange outside the model: the request it sends
     * and whether the reply means success.
     */
    static method GoToStation(station: int, piatto: int, reply: Option<int>)
      returns (visit: Visit, ok: bool)
      ensures visit == Visit(station, piatto)
      ensures ok <==> reply == Some(ESITO_OK)
    {
      visit := Visit(station, piatto);
      ok := StationOutcome(reply);
    }

    /**
     * `user_loop`: after the day-start wait, ask for a first and a second course
     * (dishes drawn with `rand_range(0, 3)` from `rPrimo`, `rSecondo`), leave if
     * both failed, otherwise ask for coffee if wanted (its reply is ignored), pay,
     * and sit down. The day and the new flags are those `PlanDay` gives, which
     * does not depend on the coffee reply.
     */
    method UserLoop(rPrimo: nat, rSecondo: nat, replyPrimo: Option<int>, replySecondo: Option<int>,
                    replyCoffee: Option<int>, replyCassa: Option<int>)
      returns (day: UserDay)
      modifies this
      ensures (Flags(), day)
              == PlanDay(old(Flags()), shm.simulationRunning,
                         RandRange(0, MAX_PRIMI_TYPES - 1, rPrimo),
                         RandRange(0, MAX_SECONDI_TYPES - 1, rSecondo),
                         replyPrimo, replySecondo, replyCassa)
    {
      if shm.simulationRunning == 0 {
        return UserDay([], NotRunning);
      }
      ghost var w := Flags();
      var visits: seq<Visit> := [];

      if wantPrimo != 0 {
        var v, ok := GoToStation(PRIMI, RandRange(0, MAX_PRIMI_TYPES - 1, rPrimo), replyPrimo);
        visits := visits + [v];
        if !ok {
          wantPrimo := 0;
        }
      }

      if wantSecondo != 0 {
        var v, ok := GoToStation(SECONDI, RandRange(0, MAX_SECONDI_TYPES - 1, rSecondo), replySecondo);
        visits := visits + [v];
        if !ok {
          wantSecondo := 0;
        }
      }

      assert visits == (if w.primo != 0 then [Visit(PRIMI, RandRange(0, MAX_PRIMI_TYPES - 1, rPrimo))] else [])
                       + (if w.secondo != 0 then [Visit(SECONDI, RandRange(0, MAX_SECONDI_TYPES - 1, rSecondo))] else []);
      if wantPrimo == 0 && wantSecondo == 0 {
        return UserDay(visits, NoDish);
      }
      ghost var v2 := visits;

      if wantCoffee != 0 {
        var v, _ := GoToStation(COFFEE, 0, replyCoffee);
        visits := visits + [v];
      }

      visits := visits + [Visit(CASSA, 0)];
      assert visits == v2 + (if w.coffee != 0 then [Visit(COFFEE, 0)] else []) + [Visit(CASSA, 0)];
      if !CassaOutcome(replyCassa) {
        return UserDay(visits, Unpaid);
      }

      day := UserDay(visits, Ate(EatMs(Flags())));
    }
  }
}

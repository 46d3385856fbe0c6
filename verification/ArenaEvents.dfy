/**
 The life of an arena event: scheduling, readiness, rounds with their maps, and payout or
 refund.  Times are unsigned 32-bit seconds.
 */
module ArenaEvents {
  import opened Options

  const U32 := 0x1_0000_0000
  const NEGOTIATION_WAIT := 120
  const ASAP_WAIT := 120
  const READY_WAIT := 5
  const MAP_CHECK := 10
  const INTERMISSION_WAIT := 120
  const PAYOUT_DELAY := 60
  const RETAIN_ENDED := 900
  const RETAIN_CANCELLED := 300

  datatype Phase =
    | Scheduled | Negotiating | StartReady | WaitReady
    | StartRound | RunRound | EndRound | Intermission
    | PayoutWait | PrizePayout | Ended | CancelRefund | Cancelled

  /** A seat is one map of one round; `winner` is 0 until the map reports. */
  datatype Seat = Seat(round: int, winner: int, map_: nat)

  datatype Payment = Prizes | Refunds

  datatype Event = Event(
    phase: Phase,
    round: int,
    seating: seq<Seat>,
    readies: int,            // acks still to come
    startTime: nat,
    roundStart: nat,
    mapcheck: nat,
    nextRound: nat,
    leaderReady: bool,
    payments: seq<Payment>,
    removed: bool)

  /** What does not change: the rounds to play, the fee, and how the event was set up. */
  datatype Config = Config(
    rounds: int, fee: bool, swiss: bool, scheduled: bool, serverRun: bool,
    minPlayers: int, maxPlayers: int, demandPlay: bool)

  /** What a tick finds around the event: its players, the maps, the rankings. */
  datatype Inputs = Inputs(
    players: int,
    sidesOk: bool,
    rescheduled: Option<nat>,        // the next time of a scheduled event that lacks players
    pairings: seq<Seat>,             // the seats a swiss draw adds for the round
    maps: nat -> Option<nat>,        // the map each seat gets, if it gets one
    mapsAlive: bool,
    runnerUp: bool)                  // the history has a winner and a runner-up

  function Sum(a: nat, b: nat): nat {
    (a + b) % U32
  }

  function Minus(a: nat, b: nat): nat {
    (a - b) % U32
  }

  // ---------------------------------------------------------------------
  //  The pieces of a tick
  // ---------------------------------------------------------------------

  /** Every seat of the event's round has a result. */
  predicate AllReported(e: Event) {
    forall i | 0 <= i < |e.seating| :: e.seating[i].round == e.round ==> e.seating[i].winner != 0
  }

  /** The seats of a round: those of the draw, or a dummy for the rankings and a single seat. */
  function Seated(c: Config, e: Event, inp: Inputs): seq<Seat> {
    e.seating + (if c.swiss then inp.pairings else [Seat(0, -1, 0), Seat(e.round, 0, 0)])
  }

  /** How far maps can be started for a round's seats: up to the first that gets none. */
  function Startable(seating: seq<Seat>, round: int, maps: nat -> Option<nat>): (n: nat)
    ensures n <= |seating|
    ensures forall i | 0 <= i < n && seating[i].round == round :: maps(i).Some?
    ensures n < |seating| ==> seating[n].round == round && maps(n).None?
  {
    if seating == [] then 0
    else
      var n := Startable(seating[..|seating| - 1], round, maps);
      if n < |seating| - 1 || (seating[n].round == round && maps(n).None?) then n else n + 1
  }

  function Mapped(seating: seq<Seat>, round: int, maps: nat -> Option<nat>, n: nat): seq<Seat>
    requires n <= |seating| && forall i | 0 <= i < n && seating[i].round == round :: maps(i).Some?
  {
    seq(|seating|, i requires 0 <= i < |seating| =>
      if i < n && seating[i].round == round then seating[i].(map_ := maps(i).value) else seating[i])
  }

  function Cancel(e: Event, time: nat, phase: Phase): Event {
    e.(roundStart := time, phase := phase)
  }

  function TickScheduled(c: Config, e: Event, time: nat, inp: Inputs): Event {
    var e := if e.roundStart == 0 then e.(roundStart := time) else e;
    if !c.scheduled then e.(phase := Negotiating, startTime := Sum(time, NEGOTIATION_WAIT))
    else if e.startTime != 0 then
      if time >= Minus(e.startTime, NEGOTIATION_WAIT) then
        if inp.players < c.minPlayers then
          match inp.rescheduled
          case Some(at) => e.(startTime := at)
          case None => e.(removed := true)
        else e.(phase := Negotiating)
      else if inp.players == c.maxPlayers && c.demandPlay then
        e.(phase := Negotiating, startTime := Sum(time, NEGOTIATION_WAIT))
      else e
    else if inp.players >= c.minPlayers && inp.sidesOk then e.(startTime := Sum(time, ASAP_WAIT))
    else e
  }

  function TickNegotiating(c: Config, e: Event, time: nat, inp: Inputs): Event {
    if c.serverRun then
      if !inp.sidesOk then Cancel(e, time, Cancelled)
      else if time >= e.startTime then e.(startTime := time, roundStart := time, phase := StartReady)
      else e
    else if inp.players == 0 then Cancel(e, time, Cancelled)
    else if e.startTime != 0 && time >= e.startTime && inp.sidesOk then
      e.(startTime := time, roundStart := time, phase := StartReady)
    else e
  }

  function TickStartRound(c: Config, e: Event, time: nat, inp: Inputs): Event {
    var e := if e.round <= 1 then e.(round := 1) else e;
    var e := e.(seating := Seated(c, e, inp));
    var n := Startable(e.seating, e.round, inp.maps);
    var e := e.(seating := Mapped(e.seating, e.round, inp.maps, n));
    if n < |e.seating| then Cancel(e, time, CancelRefund)
    else e.(roundStart := time, mapcheck := time, phase := RunRound)
  }

  function TickRunRound(e: Event, time: nat, inp: Inputs): Event {
    if time < Sum(e.mapcheck, MAP_CHECK) then e
    else
      var e := e.(mapcheck := time);
      if AllReported(e) then e.(phase := EndRound)
      else if !inp.mapsAlive then Cancel(e, time, CancelRefund)
      else e
  }

  /** One visit of the server's loop to an event. */
  function Tick(c: Config, e: Event, time: nat, inp: Inputs): Event {
    match e.phase
    case Scheduled => TickScheduled(c, e, time, inp)
    case Negotiating => TickNegotiating(c, e, time, inp)
    case StartReady => e.(readies := inp.players, phase := WaitReady)
    case WaitReady =>
      if e.readies == 0 || time >= Sum(e.startTime, READY_WAIT) then e.(phase := StartRound) else e
    case StartRound => TickStartRound(c, e, time, inp)
    case RunRound => TickRunRound(e, time, inp)
    case EndRound =>
      if e.round >= c.rounds then e.(roundStart := time, phase := if c.fee then PayoutWait else PrizePayout)
      else e.(phase := Intermission, nextRound := Sum(time, INTERMISSION_WAIT))
    case Intermission =>
      // an unsigned difference is never below zero
      if e.nextRound == 0 || Minus(e.nextRound, time) <= 0 then
        e.(round := e.round + 1, nextRound := 0, phase := StartRound)
      else e
    case PayoutWait => if time >= Sum(e.roundStart, PAYOUT_DELAY) then e.(phase := PrizePayout) else e
    case PrizePayout =>
      // without a runner-up the fees are given back instead
      e.(payments := e.payments + [if inp.runnerUp then Prizes else Refunds], roundStart := time, phase := Ended)
    case Ended => e.(removed := time >= Sum(e.roundStart, RETAIN_ENDED))
    case CancelRefund => e.(payments := e.payments + [Refunds], roundStart := time, phase := Cancelled)
    case Cancelled => e.(removed := time >= Sum(e.roundStart, RETAIN_CANCELLED))
  }

  /** A player answers the call to be ready: every ack counts, whoever sent it. */
  function Ack(e: Event, ready: bool): Event {
    if e.phase != WaitReady then e
    else if ready then e.(readies := e.readies - 1)
    else e.(startTime := 0, leaderReady := false, phase := Negotiating)
  }

  /** A map reports the winner of its seat, if the seat and its round are the ones it was started for. */
  function Report(e: Event, map_: nat, seat: int, side: int): Event {
    if 0 <= seat < |e.seating| && e.seating[seat].map_ == map_ && e.seating[seat].round == e.round then
      e.(seating := e.seating[seat := e.seating[seat].(winner := side)])
    else e
  }

  // ---------------------------------------------------------------------
  //  In place
  // ---------------------------------------------------------------------

  class ArenaEvent {
    const config: Config
    var phase: Phase
    var round: int
    var seating: seq<Seat>
    var readies: int
    var startTime: nat
    var roundStart: nat
    var mapcheck: nat
    var nextRound: nat
    var leaderReady: bool
    var payments: seq<Payment>
    var removed: bool

    constructor (config: Config)
      ensures this.config == config
      ensures View() == Event(Scheduled, 0, [], 0, 0, 0, 0, 0, false, [], false)
    {
      this.config := config;
      phase, round, seating, readies := Scheduled, 0, [], 0;
      startTime, roundStart, mapcheck, nextRound := 0, 0, 0, 0;
      leaderReady, payments, removed := false, [], false;
    }

    function View(): Event
      reads this
    {
      Event(phase, round, seating, readies, startTime, roundStart, mapcheck, nextRound, leaderReady, payments, removed)
    }

    method AllMapsReported() returns (all: bool)
      ensures all == AllReported(View())
    {
      for i := 0 to |seating|
        invariant forall k | 0 <= k < i :: seating[k].round == round ==> seating[k].winner != 0
      {
        if seating[i].round == round && seating[i].winner == 0 {
          return false;
        }
      }
      return true;
    }

    method PrepareRound(inp: Inputs)
      modifies `seating
      ensures seating == Seated(config, old(View()), inp)
    {
      if config.swiss {
        seating := seating + inp.pairings;
      } else {
        seating := seating + [Seat(0, -1, 0)];
        seating := seating + [Seat(round, 0, 0)];
        assert seating == old(seating) + [Seat(0, -1, 0), Seat(round, 0, 0)];
      }
    }

    /** Starts a map for every seat of the round, and gives up at the first that fails. */
    method StartMaps(maps: nat -> Option<nat>) returns (ok: bool)
      modifies `seating
      ensures var n := Startable(old(seating), round, maps);
              seating == Mapped(old(seating), round, maps, n) && ok == (n == |seating|)
    {
      ghost var was := seating;
      for i := 0 to |seating|
        invariant |seating| == |was|
        invariant forall k | 0 <= k < i && was[k].round == round :: maps(k).Some?
        invariant seating == Mapped(was, round, maps, i)
      {
        if seating[i].round == round {
          var id := maps(i);
          if id.None? {
            StartableIs(was, round, maps, i);
            return false;
          }
          seating := seating[i := seating[i].(map_ := id.value)];
        }
      }
      StartableIs(was, round, maps, |was|);
      return true;
    }

    /** The server's visit to the event; true when the event is to be removed. */
    method Process(time: nat, inp: Inputs)
      modifies this
      ensures View() == Tick(config, old(View()), time, inp)
    {
      match phase
      case Scheduled => ProcessScheduled(time, inp);
      case Negotiating => ProcessNegotiating(time, inp);
      case StartReady =>
        readies := inp.players;
        phase := WaitReady;
      case WaitReady =>
        if readies == 0 || time >= Sum(startTime, READY_WAIT) {
          phase := StartRound;
        }
      case StartRound => ProcessStartRound(time, inp);
      case RunRound => ProcessRunRound(time, inp);
      case EndRound =>
        if round >= config.rounds {
          roundStart := time;
          phase := if config.fee then PayoutWait else PrizePayout;
        } else {
          phase := Intermission;
          nextRound := Sum(time, INTERMISSION_WAIT);
        }
      case Intermission =>
        if nextRound == 0 || Minus(nextRound, time) <= 0 {
          round := round + 1;
          nextRound := 0;
          phase := StartRound;
        }
      case PayoutWait =>
        if time >= Sum(roundStart, PAYOUT_DELAY) {
          phase := PrizePayout;
        }
      case PrizePayout =>
        DistributePrizes(inp.runnerUp);
        roundStart := time;
        phase := Ended;
      case Ended =>
        removed := time >= Sum(roundStart, RETAIN_ENDED);
      case CancelRefund =>
        DistributeRefunds();
        roundStart := time;
        phase := Cancelled;
      case Cancelled =>
        removed := time >= Sum(roundStart, RETAIN_CANCELLED);
    }

    method DistributePrizes(runnerUp: bool)
      modifies `payments
      ensures payments == old(payments) + [if runnerUp then Prizes else Refunds]
    {
      if !runnerUp {
        DistributeRefunds();
        return;
      }
      payments := payments + [Prizes];
    }

    method DistributeRefunds()
      modifies `payments
      ensures payments == old(payments) + [Refunds]
    {
      payments := payments + [Refunds];
    }

    method ProcessScheduled(time: nat, inp: Inputs)
      modifies this
      ensures View() == TickScheduled(config, old(View()), time, inp)
    {
      if roundStart == 0 {
        roundStart := time;
      }
      if !config.scheduled {
        phase := Negotiating;
        startTime := Sum(time, NEGOTIATION_WAIT);
      } else if startTime != 0 {
        if time >= Minus(startTime, NEGOTIATION_WAIT) {
          if inp.players < config.minPlayers {
            match inp.rescheduled
            case Some(at) => startTime := at;
            case None => removed := true;
          } else {
            phase := Negotiating;
          }
        } else if inp.players == config.maxPlayers && config.demandPlay {
          phase := Negotiating;
          startTime := Sum(time, NEGOTIATION_WAIT);
        }
      } else if inp.players >= config.minPlayers && inp.sidesOk {
        startTime := Sum(time, ASAP_WAIT);
      }
    }

    method ProcessNegotiating(time: nat, inp: Inputs)
      modifies this
      ensures View() == TickNegotiating(config, old(View()), time, inp)
    {
      if config.serverRun {
        if !inp.sidesOk {
          roundStart := time;
          phase := Cancelled;
        } else if time >= startTime {
          startTime := time;
          roundStart := time;
          phase := StartReady;
        }
      } else if inp.players == 0 {
        roundStart := time;
        phase := Cancelled;
      } else if startTime != 0 && time >= startTime && inp.sidesOk {
        startTime := time;
        roundStart := time;
        phase := StartReady;
      }
    }

    method ProcessStartRound(time: nat, inp: Inputs)
      modifies this
      ensures View() == TickStartRound(config, old(View()), time, inp)
    {
      hide Startable, Seated;
      if round <= 1 {
        round := 1;
      }
      PrepareRound(inp);
      var ok := StartMaps(inp.maps);
      if !ok {
        roundStart := time;
        phase := CancelRefund;
        return;
      }
      roundStart := time;
      mapcheck := time;
      phase := RunRound;
    }

    method ProcessRunRound(time: nat, inp: Inputs)
      modifies this
      ensures View() == TickRunRound(old(View()), time, inp)
    {
      if time >= Sum(mapcheck, MAP_CHECK) {
        mapcheck := time;
        var all := AllMapsReported();
        if all {
          phase := EndRound;
        } else if !inp.mapsAlive {
          roundStart := time;
          phase := CancelRefund;
        }
      }
    }

    method HandleReadyAck(ready: bool)
      modifies this
      ensures View() == Ack(old(View()), ready)
    {
      if phase == WaitReady {
        if ready {
          readies := readies - 1;
        } else {
          startTime := 0;
          leaderReady := false;
          phase := Negotiating;
        }
      }
    }

    method HandleMapResults(map_: nat, seat: int, side: int)
      modifies `seating
      ensures View() == Report(old(View()), map_, seat, side)
    {
      if 0 <= seat < |seating| && seating[seat].map_ == map_ && seating[seat].round == round {
        seating := seating[seat := seating[seat].(winner := side)];
      }
    }
  }

  lemma {:induction false} StartableIs(seating: seq<Seat>, round: int, maps: nat -> Option<nat>, n: nat)
    requires n <= |seating| && forall i | 0 <= i < n && seating[i].round == round :: maps(i).Some?
    requires n < |seating| ==> seating[n].round == round && maps(n).None?
    ensures Startable(seating, round, maps) == n
  {
    if seating != [] {
      StartableIs(seating[..|seating| - 1], round, maps, if n < |seating| then n else n - 1);
    }
  }

  // ---------------------------------------------------------------------
  //  Runs
  // ---------------------------------------------------------------------

  datatype Happening =
    | Visit(time: nat, inp: Inputs)
    | Acked(ready: bool)
    | Reported(map_: nat, seat: int, side: int)

  function Next(c: Config, e: Event, h: Happening): Event {
    if e.removed then e
    else
      match h
      case Visit(time, inp) => Tick(c, e, time, inp)
      case Acked(ready) => Ack(e, ready)
      case Reported(map_, seat, side) => Report(e, map_, seat, side)
  }

  function Run(c: Config, e: Event, hs: seq<Happening>): Event {
    if hs == [] then e else Next(c, Run(c, e, hs[..|hs| - 1]), hs[|hs| - 1])
  }

  // --- money ---------------------------------------------------------------

  /** Nothing is paid before the end, and one payment is made at an end that pays. */
  predicate Settled(e: Event) {
    match e.phase
    case Ended => |e.payments| == 1
    case Cancelled => |e.payments| <= 1 && Prizes !in e.payments
    case _ => e.payments == []
  }

  lemma NextSettled(c: Config, e: Event, h: Happening)
    requires Settled(e)
    ensures Settled(Next(c, e, h))
  {
    hide Startable, Mapped, Seated, AllReported;
  }

  /** No event ever pays twice: it pays its prizes, or gives the fees back, once. */
  lemma {:induction false} PaysOnce(c: Config, e: Event, hs: seq<Happening>)
    requires Settled(e)
    ensures Settled(Run(c, e, hs)) && |Run(c, e, hs).payments| <= 1
  {
    if hs != [] {
      hide Next;
      PaysOnce(c, e, hs[..|hs| - 1]);
      NextSettled(c, Run(c, e, hs[..|hs| - 1]), hs[|hs| - 1]);
    }
  }

  /** Prizes go out exactly when the payout finds a winner and a runner-up; without them the payout
      is a refund, and so is every cancelled round. */
  lemma PaidIff(c: Config, e: Event, h: Happening)
    requires Settled(e)
    ensures Prizes in Next(c, e, h).payments && Prizes !in e.payments <==>
            !e.removed && h.Visit? && e.phase == PrizePayout && h.inp.runnerUp
    ensures Refunds in Next(c, e, h).payments && Refunds !in e.payments <==>
            !e.removed && h.Visit? && (e.phase == CancelRefund || (e.phase == PrizePayout && !h.inp.runnerUp))
  {
    hide Startable, Mapped, Seated, AllReported;
  }

  /** The visit pays: prizes with a runner-up, else the fees back, as after a cancelled start. */
  predicate Pays(e: Event, h: Happening, p: Payment) {
    && !e.removed && h.Visit?
    && match p
       case Prizes => e.phase == PrizePayout && h.inp.runnerUp
       case Refunds => e.phase == CancelRefund || (e.phase == PrizePayout && !h.inp.runnerUp)
  }

  lemma PaymentsStay(c: Config, e: Event, h: Happening, p: Payment)
    requires p in e.payments
    ensures p in Next(c, e, h).payments
  {
    hide Startable, Mapped, Seated, AllReported;
  }

  lemma PaidStepIff(c: Config, e: Event, h: Happening, p: Payment)
    requires Settled(e)
    ensures p in Next(c, e, h).payments <==> p in e.payments || Pays(e, h, p)
  {
    PaidIff(c, e, h);
    if p in e.payments { PaymentsStay(c, e, h, p); }
    PaysNow(c, e, h, p);
    hide Next, Settled;
  }

  lemma PaysNow(c: Config, e: Event, h: Happening, p: Payment)
    ensures Pays(e, h, p) ==> p in Next(c, e, h).payments
  {
  }

  /** Some visit of the run paid. */
  ghost predicate PaidBy(c: Config, e: Event, hs: seq<Happening>, p: Payment) {
    exists k :: 0 <= k < |hs| && Pays(Run(c, e, hs[..k]), hs[k], p)
  }

  lemma PaidByLast(c: Config, e: Event, most: seq<Happening>, h: Happening, p: Payment)
    ensures PaidBy(c, e, most + [h], p) <==> PaidBy(c, e, most, p) || Pays(Run(c, e, most), h, p)
  {
    hide Run, Pays;
    var hs := most + [h];
    if k :| 0 <= k < |most| && Pays(Run(c, e, most[..k]), most[k], p) {
      assert hs[..k] == most[..k] && hs[k] == most[k];
    }
    if k :| 0 <= k < |hs| && Pays(Run(c, e, hs[..k]), hs[k], p) {
      assert k < |most| ==> hs[..k] == most[..k] && hs[k] == most[k];
    }
    assert hs[..|most|] == most && hs[|most|] == h;
  }

  /** Over every run that starts unpaid: prizes have gone out, or the fees back, exactly if some visit paid them. */
  lemma {:induction false} PaidInRunIff(c: Config, e: Event, hs: seq<Happening>, p: Payment)
    requires Settled(e) && e.payments == []
    ensures p in Run(c, e, hs).payments <==> PaidBy(c, e, hs, p)
  {
    hide Next, Settled, Pays;
    if hs != [] {
      var most, h := hs[..|hs| - 1], hs[|hs| - 1];
      assert hs == most + [h];
      PaidInRunIff(c, e, most, p);
      PaysOnce(c, e, most);
      PaidStepIff(c, Run(c, e, most), h, p);
      PaidByLast(c, e, most, h, p);
      hide PaidBy;
    }
  }

  // --- rounds --------------------------------------------------------------

  /** A round ends on the map check that finds a result at every seat of the round, and on no other event. */
  lemma RoundEndsIff(c: Config, e: Event, h: Happening)
    requires e.phase == RunRound
    ensures Next(c, e, h).phase == EndRound <==>
            !e.removed && h.Visit? && h.time >= Sum(e.mapcheck, MAP_CHECK)
            && forall i | 0 <= i < |e.seating| && e.seating[i].round == e.round :: e.seating[i].winner != 0
  {
  }

  /** From the end of a round to the next start, or to the event's end. */
  predicate Closed(p: Phase) {
    p.EndRound? || p.Intermission? || p.PayoutWait? || p.PrizePayout? || p.Ended?
  }

  /** A report that takes a seat's result back: no test of the phase stands in its way. */
  predicate Blanks(e: Event, h: Happening) {
    && !e.removed && h.Reported? && h.side == 0
    && 0 <= h.seat < |e.seating| && e.seating[h.seat].map_ == h.map_ && e.seating[h.seat].round == e.round
  }

  /** The results that ended a round stay complete exactly until such a report. */
  lemma StaysReportedIff(c: Config, e: Event, h: Happening)
    requires Closed(e.phase) && AllReported(e) && Closed(Next(c, e, h).phase)
    ensures AllReported(Next(c, e, h)) <==> !Blanks(e, h)
  {
    if Blanks(e, h) {
      assert Next(c, e, h).seating[h.seat].winner == 0;
    }
  }

  /** Only the end of a round leads there, and then every seat of the round has its result. */
  lemma ClosesReported(c: Config, e: Event, h: Happening)
    requires !Closed(e.phase) && Closed(Next(c, e, h).phase)
    ensures e.phase == RunRound && Next(c, e, h).phase == EndRound && AllReported(Next(c, e, h))
  {
    hide Startable, Mapped, Seated;
  }

  ghost predicate NeverBlanked(c: Config, e: Event, hs: seq<Happening>) {
    forall k | 0 <= k < |hs| :: !(Closed(Run(c, e, hs[..k]).phase) && Blanks(Run(c, e, hs[..k]), hs[k]))
  }

  /** Over every run: whenever a round has ended, and until the next starts, every seat of it has a
      result, unless a map took one back in the meantime. */
  lemma {:induction false} RoundEndsReported(c: Config, e: Event, hs: seq<Happening>)
    requires (Closed(e.phase) ==> AllReported(e)) && NeverBlanked(c, e, hs)
    ensures Closed(Run(c, e, hs).phase) ==> AllReported(Run(c, e, hs))
  {
    if hs != [] {
      var most, h := hs[..|hs| - 1], hs[|hs| - 1];
      assert forall k | 0 <= k < |most| :: most[..k] == hs[..k];
      RoundEndsReported(c, e, most);
      var before := Run(c, e, most);
      hide Next, AllReported, Blanks;
      if Closed(before.phase) {
        if Closed(Next(c, before, h).phase) { StaysReportedIff(c, before, h); }
      } else if Closed(Next(c, before, h).phase) {
        ClosesReported(c, before, h);
      }
    }
  }

  /** A map that reports side 0 after the round has ended leaves the ended round without a result. */
  lemma TakenBack(c: Config) returns (e: Event, hs: seq<Happening>)
    ensures e.phase == RunRound && !Closed(e.phase)
    ensures Run(c, e, hs).phase == EndRound && !AllReported(Run(c, e, hs))
  {
    e := Event(RunRound, 1, [Seat(1, 1, 7)], 0, 0, 0, 0, 0, false, [], false);
    var inp := Inputs(2, true, None, [], i => None, true, true);
    hs := [Visit(MAP_CHECK, inp), Reported(7, 0, 0)];
    assert hs[..1] == [Visit(MAP_CHECK, inp)] && hs[..1][..0] == [];
    assert AllReported(e);
    var ended := Next(c, e, hs[0]);
    assert ended.phase == EndRound && ended.seating == e.seating && ended.round == 1;
    assert Run(c, e, hs[..1]) == Next(c, Run(c, e, []), hs[0]);
    assert Run(c, e, hs) == Next(c, ended, hs[1]);
    assert Run(c, e, hs).seating[0].winner == 0;
  }

  predicate Running(p: Phase) {
    !p.Scheduled? && !p.Negotiating? && !p.StartReady? && !p.WaitReady?
  }

  function RoundsLeft(c: Config, e: Event): nat {
    if c.rounds > e.round then c.rounds - e.round else 0
  }

  /** Rounds left, then how far the round has got. */
  function Measure(c: Config, e: Event): nat
    requires Running(e.phase)
  {
    match e.phase
    case StartRound => 4 * RoundsLeft(c, e) + 9
    case RunRound => 4 * RoundsLeft(c, e) + 8
    case EndRound => 4 * RoundsLeft(c, e) + 7
    case Intermission => 4 * RoundsLeft(c, e) + 6
    case PayoutWait => 5
    case PrizePayout => 4
    case Ended => 0
    case CancelRefund => 2
    case Cancelled => 1
  }

  /** An intermission has a round to come. */
  predicate RoundToCome(c: Config, e: Event) {
    e.phase == Intermission ==> e.round < c.rounds
  }

  lemma PhaseDescends(c: Config, e: Event, h: Happening)
    requires Running(e.phase) && RoundToCome(c, e)
    ensures Running(Next(c, e, h).phase) && RoundToCome(c, Next(c, e, h))
    ensures Measure(c, Next(c, e, h)) + (if Next(c, e, h).phase != e.phase then 1 else 0) <= Measure(c, e)
  {
    hide Startable, Mapped, Seated, AllReported;
  }

  function Changes(c: Config, e: Event, hs: seq<Happening>): nat {
    if hs == [] then 0
    else
      var before := Run(c, e, hs[..|hs| - 1]);
      Changes(c, e, hs[..|hs| - 1]) + (if Next(c, before, hs[|hs| - 1]).phase != before.phase then 1 else 0)
  }

  /** From its first round on an event changes phase at most four times a round and a few times more:
      it cannot go round for ever, and never goes back to negotiation. */
  lemma {:induction false} ChangesBounded(c: Config, e: Event, hs: seq<Happening>)
    requires Running(e.phase) && RoundToCome(c, e)
    ensures var z := Run(c, e, hs);
            Running(z.phase) && RoundToCome(c, z) && Changes(c, e, hs) + Measure(c, z) <= Measure(c, e)
  {
    if hs != [] {
      hide Next, Measure, Running, RoundToCome;
      ChangesBounded(c, e, hs[..|hs| - 1]);
      PhaseDescends(c, Run(c, e, hs[..|hs| - 1]), hs[|hs| - 1]);
    }
  }

  // --- intermission --------------------------------------------------------

  /** The time left is unsigned, so an intermission is left only by a visit in the very second it is due. */
  lemma IntermissionEndsIff(c: Config, e: Event, h: Happening)
    requires e.phase == Intermission && 0 < e.nextRound < U32 && (h.Visit? ==> h.time < U32)
    ensures Next(c, e, h).phase == StartRound <==> !e.removed && h.Visit? && h.time == e.nextRound
    ensures Next(c, e, h).phase != StartRound ==> Next(c, e, h).phase == Intermission && Next(c, e, h).nextRound == e.nextRound
  {
  }

  /** Where the visits miss that second the next round never starts. */
  lemma {:induction false} MissedSecondSticks(c: Config, e: Event, hs: seq<Happening>)
    requires e.phase == Intermission && 0 < e.nextRound < U32
    requires forall h | h in hs && h.Visit? :: h.time < U32 && h.time != e.nextRound
    ensures Run(c, e, hs).phase == Intermission && Run(c, e, hs).nextRound == e.nextRound
  {
    if hs != [] {
      var most, last := hs[..|hs| - 1], hs[|hs| - 1];
      assert last in hs && forall h | h in most :: h in hs;
      MissedSecondSticks(c, e, most);
      hide Next;
      IntermissionEndsIff(c, Run(c, e, most), last);
    }
  }

  // --- readiness -----------------------------------------------------------

  lemma {:induction false} AcksCounted(c: Config, e: Event, n: nat)
    requires e.phase == WaitReady && !e.removed
    ensures Run(c, e, seq(n, i => Acked(true))) == e.(readies := e.readies - n)
  {
    if n > 0 {
      var hs := seq(n, i => Acked(true));
      assert hs[..n - 1] == seq(n - 1, i => Acked(true));
      AcksCounted(c, e, n - 1);
    }
  }

  /** Before the time is up the round starts exactly when there have been as many acks as players,
      no matter whose: one ack too many and the event waits the time out. */
  lemma ReadyIff(c: Config, e: Event, inp: Inputs, called: nat, acks: nat, later: nat, inp': Inputs)
    requires e.phase == StartReady && !e.removed && inp.players >= 0
    ensures var waiting := Run(c, Next(c, e, Visit(called, inp)), seq(acks, i => Acked(true)));
            Next(c, waiting, Visit(later, inp')).phase == StartRound <==>
            acks == inp.players || later >= Sum(e.startTime, READY_WAIT)
  {
    AcksCounted(c, Next(c, e, Visit(called, inp)), acks);
  }
}

/**
 How an arena event goes from phase to phase, told with the numbers of the server, and that it
 pays its prizes only after every round of it has been played.
 */
module ArenaRounds {
  import opened Options
  import opened ArenaEvents

  function Wrapped(seconds: nat): nat {
    seconds % 0x1_0000_0000
  }

  /** The seats the event is to play in the round that starts. */
  function Drawn(c: Config, e: Event, inp: Inputs): seq<Seat> {
    e.seating + (if c.swiss then inp.pairings else [Seat(0, -1, 0), Seat(if e.round <= 1 then 1 else e.round, 0, 0)])
  }

  /** Every seat of the round that starts can be given a map. */
  ghost predicate CanStart(c: Config, e: Event, inp: Inputs) {
    forall i | 0 <= i < |Drawn(c, e, inp)| ::
      Drawn(c, e, inp)[i].round == (if e.round <= 1 then 1 else e.round) ==> inp.maps(i).Some?
  }

  ghost predicate Decided(e: Event) {
    forall i | 0 <= i < |e.seating| && e.seating[i].round == e.round :: e.seating[i].winner != 0
  }

  /** When a visit takes an event into another phase. */
  ghost predicate Leads(c: Config, e: Event, time: nat, inp: Inputs, q: Phase) {
    match e.phase
    case Scheduled =>
      q == Negotiating && (!c.scheduled
        || (e.startTime != 0 && time >= (e.startTime - 120) % 0x1_0000_0000 && inp.players >= c.minPlayers)
        || (e.startTime != 0 && time < (e.startTime - 120) % 0x1_0000_0000 && inp.players == c.maxPlayers && c.demandPlay))
    case Negotiating =>
      var called := if c.serverRun then inp.sidesOk else inp.players != 0;
      || (q == Cancelled && !called)
      || (q == StartReady && called && time >= e.startTime && inp.sidesOk && (c.serverRun || e.startTime != 0))
    case StartReady => q == WaitReady
    case WaitReady => q == StartRound && (e.readies == 0 || time >= Wrapped(e.startTime + 5))
    case StartRound => q == if CanStart(c, e, inp) then RunRound else CancelRefund
    case RunRound =>
      time >= Wrapped(e.mapcheck + 10)
      && ((q == EndRound && Decided(e)) || (q == CancelRefund && !Decided(e) && !inp.mapsAlive))
    case EndRound => q == if e.round < c.rounds then Intermission else if c.fee then PayoutWait else PrizePayout
    case Intermission => q == StartRound && (e.nextRound == 0 || time % 0x1_0000_0000 == e.nextRound % 0x1_0000_0000)
    case PayoutWait => q == PrizePayout && time >= Wrapped(e.roundStart + 60)
    case PrizePayout => q == Ended
    case Ended => false
    case CancelRefund => q == Cancelled
    case Cancelled => false
  }

  lemma StartableIff(seating: seq<Seat>, round: int, maps: nat -> Option<nat>)
    ensures Startable(seating, round, maps) == |seating| <==> forall i | 0 <= i < |seating| :: seating[i].round == round ==> maps(i).Some?
  {
  }

  lemma StartRoundIs(c: Config, e: Event, time: nat, inp: Inputs)
    requires e.phase == StartRound
    ensures Tick(c, e, time, inp).phase == if CanStart(c, e, inp) then RunRound else CancelRefund
  {
    var round := if e.round <= 1 then 1 else e.round;
    StartableIff(Drawn(c, e, inp), round, inp.maps);
    assert Seated(c, e.(round := round), inp) == Drawn(c, e, inp);
    hide Startable, Mapped;
  }

  /** A visit changes the phase of an event that is still there exactly where it leads on. */
  lemma VisitLeadsIff(c: Config, e: Event, time: nat, inp: Inputs, q: Phase)
    requires q != e.phase && !e.removed
    ensures Next(c, e, Visit(time, inp)).phase == q <==> Leads(c, e, time, inp, q)
  {
    if e.phase == StartRound {
      StartRoundIs(c, e, time, inp);
    }
    hide Startable, Mapped, Seated, CanStart;
  }

  /** Besides visits, only a player who is not ready changes the phase: back to negotiation. */
  lemma OthersLeadIff(c: Config, e: Event, h: Happening, q: Phase)
    requires q != e.phase && !h.Visit?
    ensures Next(c, e, h).phase == q <==> !e.removed && e.phase == WaitReady && h == Acked(false) && q == Negotiating
  {
  }

  /** An event is removed exactly when nobody came to its time and there is no other, fifteen minutes
      after its end, or five after it was cancelled. */
  lemma RemovedIff(c: Config, e: Event, h: Happening)
    requires !e.removed
    ensures Next(c, e, h).removed <==>
              h.Visit? &&
              (|| (e.phase == Scheduled && c.scheduled && e.startTime != 0 && h.time >= (e.startTime - 120) % 0x1_0000_0000
                   && h.inp.players < c.minPlayers && h.inp.rescheduled.None?)
               || (e.phase == Ended && h.time >= Wrapped(e.roundStart + 900))
               || (e.phase == Cancelled && h.time >= Wrapped(e.roundStart + 300)))
  {
    hide Startable, Mapped, Seated;
  }

  /** The times a change of phase is stamped with. */
  lemma StampsAre(c: Config, e: Event, time: nat, inp: Inputs)
    requires !e.removed
    ensures var z := Next(c, e, Visit(time, inp));
            z.phase != e.phase ==>
              match z.phase
              case Negotiating => z.startTime ==
                if c.scheduled && e.startTime != 0 && time >= (e.startTime - 120) % 0x1_0000_0000 then e.startTime else Wrapped(time + 120)
              case StartReady => z.startTime == z.roundStart == time
              case WaitReady => z.readies == inp.players && z.startTime == e.startTime
              case RunRound => z.roundStart == z.mapcheck == time
              case EndRound => z.mapcheck == time
              case Intermission => z.nextRound == Wrapped(time + 120)
              case PayoutWait => z.roundStart == time
              case PrizePayout => z.roundStart == if e.phase == EndRound then time else e.roundStart
              case Ended => z.roundStart == time
              case CancelRefund => z.roundStart == time
              case Cancelled => z.roundStart == time
              case _ => true
  {
    hide Startable, Mapped, Seated;
  }

  /** What moves what: every part of an event changes in its own phases and for its own reasons only. */
  lemma PartsMove(c: Config, e: Event, h: Happening)
    requires !e.removed
    ensures var z := Next(c, e, h);
            && (z.seating != e.seating ==> h.Reported? || (h.Visit? && e.phase.StartRound?))
            && (z.round != e.round ==> h.Visit? && (e.phase.StartRound? || e.phase.Intermission?))
            && (z.readies != e.readies ==> e.phase.StartReady? || (e.phase.WaitReady? && h == Acked(true)))
            && (z.leaderReady != e.leaderReady ==> e.phase.WaitReady? && h == Acked(false))
            && (z.payments != e.payments ==> h.Visit? && (e.phase.PrizePayout? || e.phase.CancelRefund?))
  {
    hide Startable, Mapped, Seated, TickRunRound;
    if h.Visit? && e.phase.RunRound? {
      RunRoundIs(e, h.time, h.inp);
    }
  }

  lemma RunRoundIs(e: Event, time: nat, inp: Inputs)
    ensures var z := TickRunRound(e, time, inp);
            z == e.(phase := z.phase, mapcheck := z.mapcheck, roundStart := z.roundStart)
    ensures TickRunRound(e, time, inp).mapcheck == if time >= Wrapped(e.mapcheck + 10) then time else e.mapcheck
  {
    hide AllReported;
  }

  /** And the times: a round's maps are looked at ten seconds after the last look. */
  lemma TimesMove(c: Config, e: Event, h: Happening)
    requires !e.removed
    ensures var z := Next(c, e, h);
            && (z.startTime != e.startTime ==> e.phase.Scheduled? || e.phase.Negotiating? || (e.phase.WaitReady? && h == Acked(false)))
            && (z.nextRound != e.nextRound ==> h.Visit? && (e.phase.EndRound? || e.phase.Intermission?))
            && z.mapcheck ==
               if h.Visit? && ((e.phase.StartRound? && z.phase.RunRound?) || (e.phase.RunRound? && h.time >= Wrapped(e.mapcheck + 10)))
               then h.time else e.mapcheck
  {
    hide Startable, Mapped, Seated, TickRunRound;
    if h.Visit? && e.phase.RunRound? {
      RunRoundIs(e, h.time, h.inp);
    }
  }

  /** Every seat of the round that starts plays on the map it was given; nothing else about the seats changes. */
  lemma MapsAreGiven(c: Config, e: Event, time: nat, inp: Inputs)
    requires !e.removed && e.phase == StartRound && CanStart(c, e, inp)
    ensures var z, seats, round := Next(c, e, Visit(time, inp)), Drawn(c, e, inp), if e.round <= 1 then 1 else e.round;
            && z.round == round && |z.seating| == |seats|
            && forall i | 0 <= i < |seats| ::
                 z.seating[i] == if seats[i].round == round then seats[i].(map_ := inp.maps(i).value) else seats[i]
  {
    var round := if e.round <= 1 then 1 else e.round;
    StartableIff(Drawn(c, e, inp), round, inp.maps);
    assert Seated(c, e.(round := round), inp) == Drawn(c, e, inp);
    hide Startable;
  }

  /** An event that stays scheduled: it is put off where its players are missing, and one without
      a time gets one two minutes from when it has enough of them. */
  lemma ScheduleIs(c: Config, e: Event, time: nat, inp: Inputs)
    requires !e.removed && e.phase == Scheduled && c.scheduled
    requires var z := Next(c, e, Visit(time, inp)); z.phase == Scheduled && !z.removed
    ensures var z := Next(c, e, Visit(time, inp));
            && z.roundStart == (if e.roundStart == 0 then time else e.roundStart)
            && z.startTime ==
               if e.startTime == 0 then (if inp.players >= c.minPlayers && inp.sidesOk then Wrapped(time + 120) else 0)
               else if time >= (e.startTime - 120) % 0x1_0000_0000 then inp.rescheduled.value
               else e.startTime
  {
  }

  /** A report sets the winner of the one seat it names, if map and round are that seat's, and nothing else. */
  lemma ReportIs(c: Config, e: Event, map_: nat, seat: int, side: int)
    requires !e.removed
    ensures var z := Next(c, e, Happening.Reported(map_, seat, side));
            && z == e.(seating := z.seating) && |z.seating| == |e.seating|
            && forall i | 0 <= i < |e.seating| ::
                 z.seating[i] == if i == seat && e.seating[i].map_ == map_ && e.seating[i].round == e.round
                                 then e.seating[i].(winner := side) else e.seating[i]
  {
  }

  /** A player who is not ready takes the time to start and the leader's word back. */
  lemma RefusalIs(c: Config, e: Event)
    requires !e.removed && e.phase == WaitReady
    ensures Next(c, e, Acked(false)) == e.(phase := Negotiating, startTime := 0, leaderReady := false)
  {
  }

  // ---------- every round is played ----------

  /** The end of the event has come: it waits for its payout, pays, or has paid. */
  predicate Finishing(p: Phase) {
    p.PayoutWait? || p.PrizePayout? || p.Ended?
  }

  /** The rounds that have been played to their end in a run. */
  function Played(c: Config, e: Event, hs: seq<Happening>): nat {
    if hs == [] then 0
    else
      var before := Run(c, e, hs[..|hs| - 1]);
      Played(c, e, hs[..|hs| - 1]) + if before.phase == RunRound && Next(c, before, hs[|hs| - 1]).phase == EndRound then 1 else 0
  }

  /** An event that has not begun: as it is created, scheduled or called by a player. */
  predicate Unplayed(e: Event) {
    (e.phase == Scheduled || e.phase == Negotiating) && e.round == 0 && e.payments == []
  }

  /** How the number of the round goes with the rounds played. */
  predicate Counts(c: Config, e: Event, played: nat) {
    match e.phase
    case Scheduled | Negotiating | StartReady | WaitReady => e.round == 0 && played == 0
    case StartRound => played == (if e.round <= 1 then 0 else e.round - 1) && e.round != 1 && e.round >= 0
    case RunRound => e.round >= 1 && played == e.round - 1
    case EndRound => e.round >= 1 && played == e.round
    case Intermission => e.round >= 1 && played == e.round && e.round < c.rounds
    case PayoutWait | PrizePayout | Ended => e.round >= 1 && played == e.round && e.round >= c.rounds
    case CancelRefund | Cancelled => true
  }

  lemma NextCounts(c: Config, e: Event, h: Happening, played: nat)
    requires Counts(c, e, played)
    ensures Counts(c, Next(c, e, h), played + if e.phase == RunRound && Next(c, e, h).phase == EndRound then 1 else 0)
  {
    hide Startable, Mapped, Seated, AllReported;
  }

  lemma {:induction false} RunCounts(c: Config, e: Event, hs: seq<Happening>)
    requires Unplayed(e)
    ensures Counts(c, Run(c, e, hs), Played(c, e, hs))
  {
    if hs != [] {
      hide Next, Counts;
      RunCounts(c, e, hs[..|hs| - 1]);
      NextCounts(c, Run(c, e, hs[..|hs| - 1]), hs[|hs| - 1], Played(c, e, hs[..|hs| - 1]));
    }
  }

  /** Over every run an event whose end has come, and so one that pays its prizes, has played all of its rounds. */
  lemma RoundsArePlayed(c: Config, e: Event, hs: seq<Happening>)
    requires Unplayed(e) && Finishing(Run(c, e, hs).phase)
    ensures Played(c, e, hs) >= c.rounds && Played(c, e, hs) >= 1 && Run(c, e, hs).round == Played(c, e, hs)
  {
    RunCounts(c, e, hs);
  }

  lemma PrizesAfterAllRounds(c: Config, e: Event, hs: seq<Happening>)
    requires Unplayed(e) && Prizes in Run(c, e, hs).payments
    ensures Run(c, e, hs).phase == Ended && Played(c, e, hs) >= c.rounds && Played(c, e, hs) >= 1
  {
    PaysOnce(c, e, hs);
    RunCounts(c, e, hs);
  }

  /** From round to round: a round that is not the last is followed by a break of two minutes and then by
      the next, and by no other. */
  lemma NextRoundFollows(c: Config, e: Event, time: nat, inp: Inputs, due: nat, inp': Inputs)
    requires !e.removed && e.phase == EndRound && e.round < c.rounds && time + 120 < 0x1_0000_0000
    requires due == time + 120
    ensures var pause := Next(c, e, Visit(time, inp)); var start := Next(c, pause, Visit(due, inp'));
            && pause.phase == Intermission && pause.round == e.round && pause.nextRound == time + 120
            && start.phase == StartRound && start.round == e.round + 1
  {
  }
}

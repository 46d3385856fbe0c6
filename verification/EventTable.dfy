/**
 The arena server's table of events and the players in them.  An event is named by its slot
 and by a unique id, and clients hold on to that pair after the event is gone.
 */
module EventTable {
  import opened Options
  import A = ArenaEvents

  const INT_MAX := 0x7fff_ffff
  const FIRST_SIZE := 10
  const RESERVE := 1000

  /** A participant; dbid 0 is an open place. */
  datatype Player = Player(dbid: nat, wanted: Option<string>, archetype: Option<string>, dropped: bool)

  datatype Event = Event(
    eventid: nat, uniqueid: nat, phase: A.Phase, creator: nat, maxPlayers: nat, leaderReady: bool, party: seq<Player>)

  datatype Table = Table(slots: seq<Option<Event>>, next: nat)

  predicate Playing(p: A.Phase) {
    !p.Scheduled? && !p.Negotiating? && !p.StartReady? && !p.WaitReady?
  }

  // ---------- slots and unique ids ----------

  /** The event in slot e is the one with this unique id. */
  predicate Resolves(t: Table, e: nat, u: nat) {
    e < |t.slots| && t.slots[e].Some? && t.slots[e].value.uniqueid == u
  }

  predicate Homed(slots: seq<Option<Event>>) {
    forall i | 0 <= i < |slots| && slots[i].Some? :: slots[i].value.eventid == i
  }

  predicate Good(t: Table) {
    Homed(t.slots) && (t.slots == [] || |t.slots| >= FIRST_SIZE) && t.next >= 1
  }

  function Sized(slots: seq<Option<Event>>, n: nat): (r: seq<Option<Event>>)
    ensures |r| >= n && |r| >= |slots|
    ensures forall i | 0 <= i < |r| :: r[i] == if i < |slots| then slots[i] else None
  {
    if |slots| >= n then slots else slots + seq(n - |slots|, _ => None)
  }

  function Opened(slots: seq<Option<Event>>): seq<Option<Event>> {
    if slots == [] then Sized(slots, FIRST_SIZE) else slots
  }

  /** The first empty slot from k on, or the size when there is none. */
  function FirstFree(slots: seq<Option<Event>>, k: nat): (i: nat)
    requires k <= |slots|
    ensures k <= i <= |slots| && (i < |slots| ==> slots[i].None?)
    ensures forall j | k <= j < i :: slots[j].Some?
    decreases |slots| - k
  {
    if k == |slots| || slots[k].None? then k else FirstFree(slots, k + 1)
  }

  function Room(n: nat, e: nat): (r: nat)
    requires n > 0
    ensures r > e && r >= n && (r == n || r <= 2 * e)
    decreases e - n
  {
    if e >= n then Room(2 * n, e) else n
  }

  /** The counter after it has given out an id. */
  function Advanced(next: nat): nat {
    if next + 1 >= INT_MAX then 1 else next + 1
  }

  /** The counter after an event with id u has gone. */
  function Reserved(next: nat, u: nat): nat {
    if u > next && u - next < RESERVE then u + 1 else next
  }

  function Newborn(e: nat, u: nat): Event {
    Event(e, u, A.Scheduled, 0, 128, false, [])
  }

  function FreeSlot(t: Table): (e: nat)
    requires Good(t)
    ensures 1 <= e <= |Opened(t.slots)|
  {
    FirstFree(Opened(t.slots), 1)
  }

  function Added(t: Table): Table
    requires Good(t)
  {
    var s, e := Opened(t.slots), FreeSlot(t);
    var room := if e < |s| then s else Sized(s, 2 * |s|);
    Table(room[e := Some(Newborn(e, t.next))], Advanced(t.next))
  }

  function Deleted(t: Table, e: nat): Table {
    if e < |t.slots| && t.slots[e].Some? then
      Table(t.slots[e := None], Reserved(t.next, t.slots[e].value.uniqueid))
    else t
  }

  function Loaded(t: Table, e: nat, initial: bool): Table
    requires Good(t)
  {
    var s := Opened(t.slots);
    var room := Sized(s, Room(|s|, e));
    var ev := if room[e].Some? then room[e].value else Newborn(e, 0).(maxPlayers := 0);
    if initial then Table(room[e := Some(ev)], t.next)
    else Table(room[e := Some(ev.(uniqueid := t.next))], Advanced(t.next))
  }

  lemma AddedGood(t: Table)
    requires Good(t)
    ensures Good(Added(t)) && Resolves(Added(t), FreeSlot(t), t.next)
    ensures forall i, u | Resolves(t, i, u) :: Resolves(Added(t), i, u)
  {
  }

  lemma DeletedGood(t: Table, e: nat)
    requires Good(t)
    ensures Good(Deleted(t, e))
  {
  }

  lemma LoadedGood(t: Table, e: nat, initial: bool)
    requires Good(t)
    ensures Good(Loaded(t, e, initial)) && (!initial ==> Resolves(Loaded(t, e, initial), e, t.next))
  {
  }

  lemma TableStaysGood(t: Table, e: nat, initial: bool)
    requires Good(t)
    ensures Good(Added(t)) && Good(Deleted(t, e)) && Good(Loaded(t, e, initial))
    ensures Resolves(Added(t), FreeSlot(t), t.next)
    ensures !initial ==> Resolves(Loaded(t, e, initial), e, t.next)
    ensures forall i, u | Resolves(t, i, u) :: Resolves(Added(t), i, u)
  {
    hide *;
    AddedGood(t);
    DeletedGood(t, e);
    LoadedGood(t, e, initial);
  }

  /** Creating, deleting and loading an event leave every other event under its handle, and the counter
      moves by the ids that are given out or reserved: it starts again at 1 before it reaches INT_MAX. */
  lemma OthersStay(t: Table, e: nat, initial: bool, i: nat, u: nat)
    requires Good(t)
    ensures i != FreeSlot(t) ==> (Resolves(Added(t), i, u) <==> Resolves(t, i, u))
    ensures Resolves(Deleted(t, e), i, u) <==> Resolves(t, i, u) && i != e
    ensures i != e ==> (Resolves(Loaded(t, e, initial), i, u) <==> Resolves(t, i, u))
    ensures initial && Resolves(t, e, u) ==> Resolves(Loaded(t, e, true), e, u)
    ensures Loaded(t, e, true).next == t.next
    ensures Added(t).next == Loaded(t, e, false).next == if t.next >= 0x7fff_fffe then 1 else t.next + 1
  {
    AddedStay(t, i, u);
    LoadedStay(t, e, initial, i, u);
    hide Added, Loaded, FreeSlot;
  }

  /** A new event is scheduled, belongs to nobody, has room for 128 players and none in it, and goes to
      the first empty slot but slot 0; one that is loaded into an empty slot has room for none yet. */
  lemma BornEmpty(t: Table, e: nat, initial: bool)
    requires Good(t)
    ensures var i := FreeSlot(t);
            && 1 <= i < |Added(t).slots| && (forall k | 1 <= k < i && t.slots != [] :: k < |t.slots| && t.slots[k].Some?)
            && (i < |t.slots| ==> t.slots[i].None?)
            && Added(t).slots[i] == Some(Event(i, t.next, A.Scheduled, 0, 128, false, []))
    ensures e < |Loaded(t, e, initial).slots|
    ensures e >= |t.slots| || t.slots[e].None? ==>
              Loaded(t, e, initial).slots[e] == Some(Event(e, if initial then 0 else t.next, A.Scheduled, 0, 0, false, []))
    ensures e < |t.slots| && t.slots[e].Some? ==>
              Loaded(t, e, initial).slots[e] == Some(if initial then t.slots[e].value else t.slots[e].value.(uniqueid := t.next))
  {
  }

  /** Deleting an event reserves its id if the counter would come to it within a thousand ids, but not if it is next. */
  lemma ReservedIs(t: Table, e: nat)
    ensures Deleted(t, e).next ==
            if e < |t.slots| && t.slots[e].Some? && 1 <= t.slots[e].value.uniqueid - t.next <= 999
            then t.slots[e].value.uniqueid + 1 else t.next
  {
  }

  lemma AddedStay(t: Table, i: nat, u: nat)
    requires Good(t)
    ensures i != FreeSlot(t) ==> (Resolves(Added(t), i, u) <==> Resolves(t, i, u))
    ensures Added(t).next == if t.next >= 0x7fff_fffe then 1 else t.next + 1
  {
  }

  lemma LoadedStay(t: Table, e: nat, initial: bool, i: nat, u: nat)
    requires Good(t)
    ensures i != e ==> (Resolves(Loaded(t, e, initial), i, u) <==> Resolves(t, i, u))
    ensures initial && Resolves(t, e, u) ==> Resolves(Loaded(t, e, true), e, u)
    ensures Loaded(t, e, true).next == t.next
    ensures Loaded(t, e, false).next == if t.next >= 0x7fff_fffe then 1 else t.next + 1
  {
  }

  // ---------- handles that outlive their event ----------

  datatype Op = Create | Destroy(e: nat)

  function Step(t: Table, op: Op): (t': Table)
    requires Good(t)
    ensures Good(t')
  {
    TableStaysGood(t, if op.Destroy? then op.e else 0, true);
    match op
    case Create => Added(t)
    case Destroy(e) => Deleted(t, e)
  }

  function Run(t: Table, ops: seq<Op>): (t': Table)
    requires Good(t)
    ensures Good(t')
    decreases |ops|
  {
    if ops == [] then t else Run(Step(t, ops[0]), ops[1..])
  }

  /** The counter does not wrap around during the run. */
  predicate Calm(t: Table, ops: seq<Op>)
    requires Good(t)
    decreases |ops|
  {
    ops == [] || ((ops[0].Create? ==> t.next + 1 < INT_MAX) && Calm(Step(t, ops[0]), ops[1..]))
  }

  predicate Revives(t: Table, ops: seq<Op>, e: nat, u: nat)
    requires Good(t)
  {
    Calm(t, ops) && Resolves(Run(t, ops), e, u)
  }

  /** The number of empty slots that are used before slot e. */
  function FreeBelow(slots: seq<Option<Event>>, e: nat): nat
    requires e <= |slots|
  {
    if e <= 1 then 0 else FreeBelow(slots, e - 1) + if slots[e - 1].None? then 1 else 0
  }

  lemma {:induction false} FreeBelowFilled(slots: seq<Option<Event>>, e: nat, i: nat, ev: Option<Event>)
    requires e <= |slots| && i < |slots|
    ensures FreeBelow(slots[i := ev], e) ==
            FreeBelow(slots, e) + if 1 <= i < e then (if ev.None? then 1 else 0) - (if slots[i].None? then 1 else 0) else 0
  {
    if e > 1 {
      FreeBelowFilled(slots, e - 1, i, ev);
    }
  }

  lemma {:induction false} FreeBelowSized(slots: seq<Option<Event>>, e: nat, n: nat)
    requires e <= |slots|
    ensures FreeBelow(Sized(slots, n), e) == FreeBelow(slots, e)
  {
    if e > 1 {
      FreeBelowSized(slots, e - 1, n);
    }
  }

  lemma {:induction false} FreeBelowNone(slots: seq<Option<Event>>, e: nat)
    requires 1 <= e <= |slots|
    ensures FreeBelow(slots, e) == 0 <==> FirstFree(slots, 1) >= e
  {
    if e > 1 {
      FreeBelowNone(slots, e - 1);
    }
  }

  /** No event created from here on can get the pair (e, u). */
  predicate Spent(t: Table, e: nat, u: nat) {
    1 <= e < |t.slots| && !Resolves(t, e, u) && (u < t.next || FreeBelow(t.slots, e) > u - t.next)
  }

  lemma AddedKeepsFree(t: Table, e: nat)
    requires Good(t) && 1 <= e < |t.slots|
    ensures e < |Added(t).slots|
    ensures FreeBelow(t.slots, e) == 0 ==> FreeBelow(Added(t).slots, e) == 0
    ensures FreeBelow(t.slots, e) > 0 ==>
              FreeBelow(Added(t).slots, e) == FreeBelow(t.slots, e) - 1 && Added(t).slots[e] == t.slots[e]
  {
    var s, f := t.slots, FreeSlot(t);
    var room := if f < |s| then s else Sized(s, 2 * |s|);
    FreeBelowNone(s, e);
    FreeBelowSized(s, e, 2 * |s|);
    FreeBelowFilled(room, e, f, Some(Newborn(f, t.next)));
  }

  lemma SpentStep(t: Table, op: Op, e: nat, u: nat)
    requires Good(t) && Spent(t, e, u) && Calm(t, [op])
    ensures Spent(Step(t, op), e, u)
  {
    match op
    case Create =>
      AddedKeepsFree(t, e);
    case Destroy(d) =>
      if d < |t.slots| && t.slots[d].Some? {
        FreeBelowFilled(t.slots, e, d, None);
      }
  }

  lemma {:induction false} SpentForever(t: Table, ops: seq<Op>, e: nat, u: nat)
    requires Good(t) && Spent(t, e, u) && Calm(t, ops)
    ensures Spent(Run(t, ops), e, u)
    decreases |ops|
  {
    if ops != [] {
      SpentStep(t, ops[0], e, u);
      SpentForever(Step(t, ops[0]), ops[1..], e, u);
    }
  }

  lemma {:induction false} CounterRises(t: Table, ops: seq<Op>)
    requires Good(t) && Calm(t, ops)
    ensures Run(t, ops).next >= t.next
    decreases |ops|
  {
    if ops != [] {
      CounterRises(Step(t, ops[0]), ops[1..]);
    }
  }

  /** An id at or past the counter's end is given to nobody. */
  lemma {:induction false} OutOfReach(t: Table, ops: seq<Op>, e: nat, u: nat)
    requires Good(t) && e < |t.slots| && !Resolves(t, e, u) && u + 1 >= INT_MAX && Calm(t, ops)
    ensures !Resolves(Run(t, ops), e, u)
    decreases |ops|
  {
    if ops != [] {
      OutOfReach(Step(t, ops[0]), ops[1..], e, u);
    }
  }

  /** A run that gives the pair (e, u) to a new event. */
  lemma {:induction false} Reborn(t: Table, e: nat, u: nat) returns (ops: seq<Op>)
    requires Good(t) && 1 <= e < |t.slots| && t.slots[e].None?
    requires t.next <= u && u + 1 < INT_MAX && FreeBelow(t.slots, e) <= u - t.next
    ensures Calm(t, ops) && Resolves(Run(t, ops), e, u)
    decreases u - t.next
  {
    AddedKeepsFree(t, e);
    FreeBelowNone(t.slots, e);
    var t1 := Step(t, Create);
    if FreeBelow(t.slots, e) > 0 {
      var rest := Reborn(t1, e, u);
      ops := [Create] + rest;
    } else if t.next == u {
      ops := [Create];
      assert Run(t, ops) == t1;
    } else {
      var t2 := Step(t1, Destroy(e));
      FreeBelowFilled(t1.slots, e, e, None);
      var rest := Reborn(t2, e, u);
      ops := [Create] + ([Destroy(e)] + rest);
      assert Run(t, ops) == Run(t2, rest);
    }
  }

  /** When a handle whose slot is empty can come to name another event. */
  lemma {:induction false} StaleHandleIff(t: Table, e: nat, u: nat)
    requires Good(t) && 1 <= e < |t.slots| && t.slots[e].None?
    ensures (exists ops :: Revives(t, ops, e, u)) <==>
            t.next <= u && u + 1 < INT_MAX && FreeBelow(t.slots, e) <= u - t.next
  {
    if t.next <= u && u + 1 < INT_MAX && FreeBelow(t.slots, e) <= u - t.next {
      var ops := Reborn(t, e, u);
      assert Revives(t, ops, e, u);
    } else {
      forall ops | Calm(t, ops) ensures !Revives(t, ops, e, u) {
        if Spent(t, e, u) {
          SpentForever(t, ops, e, u);
        } else {
          OutOfReach(t, ops, e, u);
        }
      }
    }
  }

  /** The same, told of the event's deletion. */
  lemma DeletedHandleIff(t: Table, e: nat, u: nat)
    requires Good(t) && 1 <= e && Resolves(t, e, u)
    ensures (exists ops :: Revives(Deleted(t, e), ops, e, u)) <==>
            (u == t.next || u - t.next >= RESERVE) && u + 1 < INT_MAX && FreeBelow(t.slots, e) <= u - t.next
  {
    TableStaysGood(t, e, true);
    FreeBelowFilled(t.slots, e, e, None);
    StaleHandleIff(Deleted(t, e), e, u);
  }

  /** An event created in this run leaves a handle that never names another event. */
  lemma CreatedHandleDies(t: Table, before: seq<Op>, after: seq<Op>)
    requires Good(t)
    requires var e, u, t1 := FreeSlot(t), t.next, Run(Added(t), before);
             Calm(t, [Create] + before) && Resolves(t1, e, u) && Calm(Deleted(t1, e), after)
    ensures !Resolves(Run(Deleted(Run(Added(t), before), FreeSlot(t)), after), FreeSlot(t), t.next)
  {
    var e, t1 := FreeSlot(t), Run(Added(t), before);
    assert ([Create] + before)[1..] == before;
    CounterRises(Added(t), before);
    TableStaysGood(t1, e, true);
    SpentForever(Deleted(t1, e), after, e, t.next);
  }

  /** A loaded event with the very id the counter has reached: its handle names the next event. */
  lemma ReservedTooLate()
    ensures exists t: Table :: Good(t) && Resolves(t, 1, 1) && Resolves(Added(Deleted(t, 1)), 1, 1)
  {
    var t := Table(Sized([], FIRST_SIZE)[1 := Some(Newborn(1, 1))], 1);
    TableStaysGood(t, 1, true);
    TableStaysGood(Deleted(t, 1), 1, true);
  }
}

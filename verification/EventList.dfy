/** The arena server's global list of events, as the handlers change it. */
module EventList {
  import opened Options
  import opened EventTable
  import opened EventPlayers

  class EventList {
    var events: seq<Option<Event>>
    var next: nat

    constructor ()
      ensures View() == Table([], 1) && Good(View())
    {
      events, next := [], 1;
    }

    function View(): Table
      reads this
    {
      Table(events, next)
    }

    method GetUniqueId() returns (id: nat)
      modifies `next
      ensures id == old(next) && next == Advanced(old(next))
    {
      id := next;
      next := next + 1;
      if next >= INT_MAX {
        next := 1;
      }
    }

    method DeletingUniqueId(id: nat)
      modifies `next
      ensures next == Reserved(old(next), id)
    {
      if id > next && id - next < RESERVE {
        next := id + 1;
      }
    }

    method SetSize(n: nat)
      requires n >= |events|
      modifies `events
      ensures events == Sized(old(events), n)
    {
      events := events + seq(n - |events|, _ => None);
    }

    method Add() returns (i: nat)
      requires Good(View())
      modifies this
      ensures Good(View()) && View() == Added(old(View())) && i == FreeSlot(old(View()))
      ensures i < |events| && events[i] == Some(Newborn(i, old(next)))
    {
      ghost var t := View();
      if events == [] {
        SetSize(FIRST_SIZE);
      }
      i := 1;
      while i < |events|
        invariant 1 <= i <= |events| && FirstFree(events, i) == FirstFree(events, 1)
      {
        if events[i].None? {
          break;
        }
        i := i + 1;
      }
      if i >= |events| {
        SetSize(2 * |events|);
      }
      var id := GetUniqueId();
      events := events[i := Some(Newborn(i, id))];
      TableStaysGood(t, 0, true);
    }

    /** Doubles the table until it has the slot. */
    method MakeRoom(eventid: nat)
      modifies `events
      ensures var s := Opened(old(events)); events == Sized(s, Room(|s|, eventid))
    {
      if events == [] {
        SetSize(FIRST_SIZE);
      }
      ghost var was := events;
      while eventid >= |events|
        invariant |events| > 0 && events == Sized(was, |events|)
        invariant Room(|events|, eventid) == Room(|was|, eventid)
        decreases eventid - |events|
      {
        SetSize(2 * |events|);
      }
    }

    method GetAdd(eventid: nat, initialLoad: bool) returns (e: Event)
      requires Good(View())
      modifies this
      ensures Good(View()) && View() == Loaded(old(View()), eventid, initialLoad)
      ensures eventid < |events| && events[eventid] == Some(e) && e.eventid == eventid
    {
      ghost var t := View();
      MakeRoom(eventid);
      if events[eventid].None? {
        events := events[eventid := Some(Newborn(eventid, 0).(maxPlayers := 0))];
      }
      e := events[eventid].value;
      if !initialLoad {
        var id := GetUniqueId();
        e := e.(uniqueid := id);
      }
      events := events[eventid := Some(e)];
      assert View() == Loaded(t, eventid, initialLoad);
      TableStaysGood(t, eventid, initialLoad);
    }

    method GetUnique(eventid: nat, uniqueid: nat) returns (found: Option<Event>)
      requires Homed(events)
      ensures found.Some? <==> Resolves(View(), eventid, uniqueid)
      ensures found.Some? ==> found == events[eventid] && found.value.eventid == eventid && found.value.uniqueid == uniqueid
    {
      if eventid >= |events| || events[eventid].None? || events[eventid].value.uniqueid != uniqueid {
        return None;
      }
      return events[eventid];
    }

    method Delete(eventid: nat)
      modifies this
      ensures View() == Deleted(old(View()), eventid)
    {
      if eventid >= |events| || events[eventid].None? {
        return;
      }
      DeletingUniqueId(events[eventid].value.uniqueid);
      events := events[eventid := None];
    }

    method AddParticipant(i: nat, d: nat, archetype: Option<string>, eligible: bool) returns (out: Outcome)
      requires i < |events| && events[i].Some?
      modifies `events
      ensures var (e', o) := Join(old(events)[i].value, d, archetype, eligible);
              events == old(events)[i := Some(e')] && out == o
    {
      var e := events[i].value;
      for k := 0 to |e.party|
        invariant d != 0 ==> forall j | 0 <= j < k :: e.party[j].dbid != d
      {
        if d != 0 && e.party[k].dbid == d {
          assert Sits(e.party, d);
          return AlreadyJoined;
        }
      }
      if !eligible {
        return NotEligible;
      }
      if e.leaderReady {
        return EventStarting;
      }
      if |e.party| >= e.maxPlayers {
        var k := 0;
        while k < |e.party|
          invariant k <= |e.party| && OpenPlace(e.party, archetype, k) == OpenPlace(e.party, archetype, 0)
        {
          if Suits(e.party[k], archetype) {
            break;
          }
          k := k + 1;
        }
        if k == |e.party| {
          return NoMatchingSlots;
        }
        e := e.(party := e.party[k := e.party[k].(dbid := d, archetype := archetype)]);
      } else {
        e := e.(party := e.party + [Player(d, None, archetype, false)]);
      }
      events := events[i := Some(e)];
      return Joined;
    }

    /** Looks for the player's place, in order. */
    method FindPlace(party: seq<Player>, d: nat) returns (k: nat)
      ensures k == PlaceOf(party, d, 0)
    {
      k := 0;
      while k < |party|
        invariant k <= |party| && PlaceOf(party, d, k) == PlaceOf(party, d, 0)
      {
        if party[k].dbid == d {
          return;
        }
        k := k + 1;
      }
    }

    method HandOver(party: seq<Player>, creator: nat) returns (heir: nat)
      ensures heir == Heir(party, creator, 0)
    {
      var k := 0;
      while k < |party|
        invariant k <= |party| && Heir(party, creator, k) == Heir(party, creator, 0)
      {
        if party[k].dbid != 0 && party[k].dbid != creator {
          return party[k].dbid;
        }
        k := k + 1;
      }
      return creator;
    }

    method CountPlayers(party: seq<Player>) returns (n: nat)
      ensures n == Count(party)
    {
      n := 0;
      for k := 0 to |party|
        invariant n == Count(party[..k])
      {
        assert party[..k + 1][..k] == party[..k];
        if party[k].dbid != 0 {
          n := n + 1;
        }
      }
      assert party[..|party|] == party;
    }

    method RemoveParticipant(i: nat, d: nat)
      requires Homed(events) && i < |events| && events[i].Some?
      modifies this
      ensures var t, e := old(View()), old(events)[i].value;
              var left := t.(slots := t.slots[i := Some(Leave(e, d))]);
              Homed(events) && View() == if Deserted(e, d) then Deleted(left, i) else left
    {
      var e := events[i].value;
      ghost var was := e;
      if d == 0 || e.party == [] {
        assert events == old(events)[i := Some(e)];
        return;
      }
      var k := FindPlace(e.party, d);
      if Playing(e.phase) && k < |e.party| {
        events := events[i := Some(e.(party := e.party[k := e.party[k].(dropped := true)]))];
        return;
      }
      if e.creator == d {
        var heir := HandOver(e.party, e.creator);
        e := e.(creator := heir);
      }
      e := e.(leaderReady := false);
      if k < |e.party| {
        e := e.(party := e.party[k := e.party[k].(dbid := 0)]);
      }
      events := events[i := Some(e)];
      assert e == Leave(was, d);
      var n := CountPlayers(e.party);
      if k < |e.party| && n == 0 && e.phase.Negotiating? && e.creator != 0 {
        Delete(e.eventid);
      }
    }

    /** The creator's update of the number of places. */
    method FitPlaces(i: nat, max: nat)
      requires i < |events| && events[i].Some?
      modifies `events
      ensures var e := old(events)[i].value;
              events == old(events)[i := Some(e.(maxPlayers := max, party := Resized(e.party, max)))]
    {
      var e := events[i].value;
      var party := e.party;
      while |party| < max
        invariant |party| <= if |e.party| > max then |e.party| else max
        invariant party == if |e.party| >= max then e.party else Resized(e.party, max)[..|party|]
        invariant |party| >= |e.party|
      {
        party := party + [Player(0, None, None, false)];
      }
      while |party| > max
        invariant max <= |party| && (|party| <= |e.party| || party == Resized(e.party, max))
        invariant |party| <= |e.party| ==> party == e.party[..|party|]
      {
        party := party[..|party| - 1];
      }
      events := events[i := Some(e.(maxPlayers := max, party := party))];
    }

    /** Drops the empty places, from the last, when a round is prepared. */
    method DropEmpty(i: nat)
      requires i < |events| && events[i].Some?
      modifies `events
      ensures var e := old(events)[i].value;
              events == old(events)[i := Some(e.(party := Occupied(e.party)))]
    {
      var e := events[i].value;
      var party := e.party;
      var k := |party|;
      assert party == e.party[..k] + e.party[k..];
      while k > 0
        invariant 0 <= k <= |e.party| && party == e.party[..k] + Occupied(e.party[k..])
      {
        k := k - 1;
        assert e.party[k..][1..] == e.party[k + 1..];
        if party[k].dbid == 0 {
          party := party[..k] + party[k + 1..];
        }
      }
      assert e.party[0..] == e.party && e.party[..0] == [];
      assert party == Occupied(e.party);
      events := events[i := Some(e.(party := party))];
    }

    /** Takes the player out of every event still in negotiation. */
    method PlayerDisconnected(d: nat)
      requires Homed(events)
      modifies this
      ensures Homed(events) && View() == Disconnected(old(View()), d, |old(events)|)
    {
      hide Removed, Leave, Deserted;
      var i := |events|;
      ghost var n := i;
      while i > 0
        invariant 0 <= i <= n == |events| && Homed(events)
        invariant Disconnected(View(), d, i) == Disconnected(old(View()), d, n)
      {
        i := i - 1;
        if events[i].Some? && events[i].value.phase.Negotiating? {
          var k := FindPlace(events[i].value.party, d);
          if k < |events[i].value.party| {
            DropFrom(i, d);
          }
        }
      }
    }

    method DropFrom(i: nat, d: nat)
      requires Homed(events) && i < |events| && events[i].Some?
      modifies this
      ensures View() == Removed(old(View()), i, d) && Homed(events)
    {
      RemoveParticipant(i, d);
    }
  }
}

/**
 Which map servers listen to which players.  The two directions of the registry, the minute a
 player may stay without a listener, and the clients an event's news go to.
 */
module Listeners {
  import opened Lists
  import opened EventTable
  import opened EventPlayers
  import A = ArenaEvents

  const DISCONNECT_TIMEOUT := 60

  /** A map server's connection, with the players it has registered for. */
  class Client {
    var registered: seq<nat>

    constructor ()
      ensures registered == []
    {
      registered := [];
    }
  }

  datatype State = State(
    listeners: map<nat, seq<Client>>,
    registered: map<Client, seq<nat>>,
    ttl: map<nat, nat>,                  // when a player without listeners is given up
    arena: Arena)

  type Arena = t: Table | Homed(t.slots) witness Table([], 1)

  predicate Hears(s: State, c: Client, d: nat) {
    d in s.listeners && c in s.listeners[d]
  }

  /** The two directions agree, no list is empty, and only the unheard have a time to live. */
  ghost predicate Linked(s: State) {
    && (forall d | d in s.listeners :: NoDup(s.listeners[d]) && s.listeners[d] != [])
    && (forall d, k | d in s.listeners && 0 <= k < |s.listeners[d]| :: s.listeners[d][k] in s.registered)
    && (forall c | c in s.registered :: NoDup(s.registered[c]))
    && (forall c, d | c in s.registered :: d in s.registered[c] <==> Hears(s, c, d))
    && (forall d | d in s.ttl :: d != 0 && d !in s.listeners)
  }

  function HeardBy(s: State, d: nat): seq<Client> {
    if d in s.listeners then s.listeners[d] else []
  }

  function RegisteredOf(s: State, c: Client): seq<nat> {
    if c in s.registered then s.registered[c] else []
  }

  function Heard(s: State, c: Client, d: nat): State {
    s.(listeners := s.listeners[d := Including(HeardBy(s, d), c)],
       registered := s.registered[c := Including(RegisteredOf(s, c), d)],
       ttl := if d == 0 then s.ttl else s.ttl - {d})
  }

  function Doomed(ttl: map<nat, nat>, d: nat, now: nat): map<nat, nat> {
    if d == 0 then ttl else ttl[d := A.Sum(now, DISCONNECT_TIMEOUT)]
  }

  function Offline(t: Arena, d: nat): Arena {
    DisconnectedIs(t, d, |t.slots|);
    Disconnected(t, d, |t.slots|)
  }

  /** One listener fewer for player d. */
  function Quieter(s: State, c: Client, d: nat, logout: bool, now: nat): State {
    if d !in s.listeners then s
    else
      var rest := Without(s.listeners[d], c);
      if rest != [] then s.(listeners := s.listeners[d := rest])
      else if logout then s.(listeners := s.listeners - {d}, arena := Offline(s.arena, d))
      else s.(listeners := s.listeners - {d}, ttl := Doomed(s.ttl, d, now))
  }

  function Unheard(s: State, c: Client, d: nat, logout: bool, now: nat): State {
    Quieter(s, c, d, logout, now).(registered := s.registered[c := Without(RegisteredOf(s, c), d)])
  }

  lemma HeardHears(s: State, c: Client, d: nat)
    ensures forall x, y :: Hears(Heard(s, c, d), x, y) <==> Hears(s, x, y) || (x == c && y == d)
  {
  }

  lemma HeardLinks(s: State, c: Client, d: nat)
    requires Linked(s)
    ensures Linked(Heard(s, c, d))
    ensures forall x, y :: Hears(Heard(s, c, d), x, y) <==> Hears(s, x, y) || (x == c && y == d)
  {
    HeardHears(s, c, d);
    var list := HeardBy(s, d);
    assert c !in list ==> NoDup(list + [c]);
    assert c !in s.registered ==> !Hears(s, c, d);
    hide Hears;
  }

  lemma UnheardHears(s: State, c: Client, d: nat, logout: bool, now: nat)
    requires Linked(s)
    ensures forall x, y :: Hears(Unheard(s, c, d, logout, now), x, y) <==> Hears(s, x, y) && !(x == c && y == d)
  {
    hide Without, Offline;
    if d in s.listeners {
      WithoutMembers(s.listeners[d], c);
    }
  }

  lemma UnheardLinks(s: State, c: Client, d: nat, logout: bool, now: nat)
    requires Linked(s)
    ensures Linked(Unheard(s, c, d, logout, now))
    ensures forall x, y :: Hears(Unheard(s, c, d, logout, now), x, y) <==> Hears(s, x, y) && !(x == c && y == d)
  {
    UnheardHears(s, c, d, logout, now);
    hide Without, Offline, Hears;
    WithoutMembers(RegisteredOf(s, c), d);
    WithoutNoDup(RegisteredOf(s, c), d);
    if d in s.listeners {
      WithoutMembers(s.listeners[d], c);
      WithoutNoDup(s.listeners[d], c);
    }
  }

  /** A registration that is taken back leaves the listeners as they were. */
  lemma HeardThenUnheard(s: State, c: Client, d: nat, logout: bool, now: nat)
    requires Linked(s) && !Hears(s, c, d)
    ensures var s' := Unheard(Heard(s, c, d), c, d, logout, now);
            && s'.listeners == s.listeners && s'.registered == s.registered[c := RegisteredOf(s, c)]
            && s'.ttl == if d in s.listeners then s.ttl else if logout then Heard(s, c, d).ttl else Doomed(s.ttl, d, now)
  {
    hide Without;
    AppendedGoes(HeardBy(s, d), c);
    AppendedGoes(RegisteredOf(s, c), d);
  }

  lemma AppendedGoes<T>(list: seq<T>, x: T)
    requires x !in list
    ensures Without(list + [x], x) == list
  {
    assert list + [x] == list[..|list|] + [x] + list[|list|..];
    WithoutInserted(list, |list|, x);
  }

  /** What is left when the client gives up its registrations one after the other. */
  function AllUnheard(s: State, c: Client, ds: seq<nat>, now: nat): State
    decreases |ds|
  {
    if ds == [] then s else AllUnheard(Unheard(s, c, ds[0], false, now), c, ds[1..], now)
  }

  /** A request for some players, one after the other. */
  function Each(s: State, c: Client, add: bool, logout: bool, ds: seq<nat>, now: nat): State
    decreases |ds|
  {
    if ds == [] then s
    else
      var n := |ds| - 1;
      var r := Each(s, c, add, logout, ds[..n], now);
      if add then Heard(r, c, ds[n]) else Unheard(r, c, ds[n], logout, now)
  }

  function Asked(s: State, c: Client, full: bool, add: bool, logout: bool, ds: seq<nat>, now: nat): State {
    Each(if full then AllUnheard(s, c, RegisteredOf(s, c), now) else s, c, add, logout, ds, now)
  }

  /** After a full update the client listens to exactly the players it named. */
  lemma FullUpdate(s: State, c: Client, ds: seq<nat>, now: nat)
    requires Linked(s)
    ensures var r := Asked(s, c, true, true, false, ds, now);
            Linked(r) && forall d :: Hears(r, c, d) <==> d in ds
  {
    AllUnheardIs(s, c, now);
    EachIs(AllUnheard(s, c, RegisteredOf(s, c), now), c, true, false, ds, now);
  }

  lemma {:induction false} EachIs(s: State, c: Client, add: bool, logout: bool, ds: seq<nat>, now: nat)
    requires Linked(s)
    ensures var r := Each(s, c, add, logout, ds, now);
            && Linked(r)
            && forall x, d :: Hears(r, x, d) <==>
                 if x == c && d in ds then add else Hears(s, x, d)
    decreases |ds|
  {
    if ds != [] {
      var n := |ds| - 1;
      EachIs(s, c, add, logout, ds[..n], now);
      var r := Each(s, c, add, logout, ds[..n], now);
      HeardLinks(r, c, ds[n]);
      UnheardLinks(r, c, ds[n], logout, now);
    }
  }

  lemma FirstGoes(list: seq<nat>)
    requires NoDup(list) && list != []
    ensures Without(list, list[0]) == list[1..]
  {
    WithoutAbsent(list[1..], list[0]);
  }

  lemma UnheardFirst(s: State, c: Client, now: nat)
    requires Linked(s) && RegisteredOf(s, c) != []
    ensures var d := RegisteredOf(s, c)[0]; var r := Unheard(s, c, d, false, now);
            && d in s.listeners && r.arena == s.arena
            && RegisteredOf(r, c) == RegisteredOf(s, c)[1..] && r.registered - {c} == s.registered - {c}
            && r.ttl == (if s.listeners[d] == [c] then Doomed(s.ttl, d, now) else s.ttl)
            && r.listeners - {d} == s.listeners - {d}
  {
    var d := RegisteredOf(s, c)[0];
    FirstGoes(RegisteredOf(s, c));
    assert d in RegisteredOf(s, c) && Hears(s, c, d);
    OnlyListener(s.listeners[d], c);
    hide Linked, Without, Offline, Doomed;
  }

  /** The client is nowhere left, every other listener is, and the players it alone heard get a minute. */
  lemma {:induction false} AllUnheardIs(s: State, c: Client, now: nat)
    requires Linked(s)
    ensures var r := AllUnheard(s, c, RegisteredOf(s, c), now);
            && Linked(r) && RegisteredOf(r, c) == [] && r.registered - {c} == s.registered - {c} && r.arena == s.arena
            && (forall x, d :: Hears(r, x, d) <==> Hears(s, x, d) && x != c)
            && OnlyHeardByDoomed(s, r, c, now)
    decreases |RegisteredOf(s, c)|
  {
    if RegisteredOf(s, c) == [] {
      assert forall d | d in s.listeners && s.listeners[d] == [c] :: Hears(s, c, d);
      HearsRegistered(s, c);
    } else {
      var d := RegisteredOf(s, c)[0];
      UnheardLinks(s, c, d, false, now);
      UnheardFirst(s, c, now);
      hide Linked, Hears, Unheard, OnlyHeardByDoomed, RegisteredOf;
      var s1 := Unheard(s, c, d, false, now);
      AllUnheardIs(s1, c, now);
      assert !Hears(s1, c, d);
      DoomedInTurn(s, s1, AllUnheard(s1, c, RegisteredOf(s1, c), now), c, d, now);
      HearsRegistered(s, c);
    }
  }

  lemma HearsRegistered(s: State, c: Client)
    requires Linked(s)
    ensures forall d :: Hears(s, c, d) <==> d in RegisteredOf(s, c)
  {
  }

  ghost predicate OnlyHeardByDoomed(s: State, r: State, c: Client, now: nat) {
    && (forall d :: d in r.ttl <==> d in s.ttl || (d != 0 && d in s.listeners && s.listeners[d] == [c]))
    && (forall d | d in r.ttl :: r.ttl[d] == if d in s.ttl then s.ttl[d] else A.Sum(now, DISCONNECT_TIMEOUT))
  }

  lemma DoomedInTurn(s: State, s1: State, r: State, c: Client, d: nat, now: nat)
    requires Linked(s) && OnlyHeardByDoomed(s1, r, c, now)
    requires d in s.listeners && s1.ttl == (if s.listeners[d] == [c] then Doomed(s.ttl, d, now) else s.ttl)
    requires !Hears(s1, c, d) && s1.listeners - {d} == s.listeners - {d}
    ensures OnlyHeardByDoomed(s, r, c, now)
  {
    assert d !in s.ttl;
    hide Linked;
    forall x | x != d
      ensures x in s1.listeners <==> x in s.listeners
      ensures x in s.listeners ==> s1.listeners[x] == s.listeners[x]
    {
      assert x in s1.listeners <==> x in s1.listeners - {d};
      assert x in s.listeners <==> x in s.listeners - {d};
      if x in s.listeners {
        assert (s1.listeners - {d})[x] == (s.listeners - {d})[x];
      }
    }
  }

  /** The client's connection is gone. */
  function HungUp(s: State, c: Client, now: nat): State {
    var r := AllUnheard(s, c, RegisteredOf(s, c), now);
    r.(registered := r.registered - {c})
  }

  lemma HungUpIs(s: State, c: Client, now: nat)
    requires Linked(s)
    ensures var r := HungUp(s, c, now);
            && Linked(r) && c !in r.registered && r.arena == s.arena
            && (forall x, d :: Hears(r, x, d) <==> Hears(s, x, d) && x != c)
            && OnlyHeardByDoomed(s, r, c, now)
  {
    AllUnheardIs(s, c, now);
    var r := AllUnheard(s, c, RegisteredOf(s, c), now);
    HearsRegistered(r, c);
    assert forall d, k | d in r.listeners && 0 <= k < |r.listeners[d]| && r.listeners[d][k] == c :: Hears(r, c, d);
  }

  lemma OnlyListener(list: seq<Client>, c: Client)
    requires NoDup(list) && c in list
    ensures Without(list, c) == [] <==> list == [c]
  {
    WithoutMembers(list, c);
    if Without(list, c) == [] {
      assert forall x | x in list :: x == c;
    }
  }

  // ---------- the clients an event's news go to ----------

  /** The clients of a list that are not yet among those gathered, from the last. */
  function Gathered(to: seq<Client>, list: seq<Client>): seq<Client>
    decreases |list|
  {
    if list == [] then to
    else
      var n := |list| - 1;
      Gathered(if list[n] in to then to else to + [list[n]], list[..n])
  }

  function GatheredFor(to: seq<Client>, s: State, party: seq<Player>): seq<Client>
    decreases |party|
  {
    if party == [] then to
    else
      var n := |party| - 1;
      GatheredFor(Gathered(to, HeardBy(s, party[n].dbid)), s, party[..n])
  }

  lemma {:induction false} GatheredIs(to: seq<Client>, list: seq<Client>)
    requires NoDup(to)
    ensures NoDup(Gathered(to, list)) && to <= Gathered(to, list)
    ensures forall c :: c in Gathered(to, list) <==> c in to || c in list
    decreases |list|
  {
    if list != [] {
      var n := |list| - 1;
      GatheredIs(if list[n] in to then to else to + [list[n]], list[..n]);
    }
  }

  /** An event's news go once to each client that hears one of its participants, and to no other. */
  lemma {:induction false} GatheredForIs(to: seq<Client>, s: State, party: seq<Player>)
    requires NoDup(to)
    ensures NoDup(GatheredFor(to, s, party)) && to <= GatheredFor(to, s, party)
    ensures forall c :: c in GatheredFor(to, s, party) <==>
              c in to || exists k :: 0 <= k < |party| && Hears(s, c, party[k].dbid)
    decreases |party|
  {
    if party != [] {
      var n := |party| - 1;
      var next := Gathered(to, HeardBy(s, party[n].dbid));
      GatheredIs(to, HeardBy(s, party[n].dbid));
      GatheredForIs(next, s, party[..n]);
      forall c ensures c in GatheredFor(to, s, party) <==> c in to || exists k :: 0 <= k < |party| && Hears(s, c, party[k].dbid) {
        assert Hears(s, c, party[n].dbid) <==> c in HeardBy(s, party[n].dbid);
        if k :| 0 <= k < |party| && Hears(s, c, party[k].dbid) {
          assert k == n || party[..n][k].dbid == party[k].dbid;
        }
        if k :| 0 <= k < n && Hears(s, c, party[..n][k].dbid) {
          assert party[k].dbid == party[..n][k].dbid;
        }
      }
    }
  }

  // ---------- players given up ----------

  function TimedOut(s: State, order: seq<nat>): State
    decreases |order|
  {
    if order == [] then s
    else TimedOut(s.(ttl := s.ttl - {order[0]}, arena := Offline(s.arena, order[0])), order[1..])
  }

  /** The order in which a check comes upon the players whose time is up. */
  ghost predicate IsDue(s: State, order: seq<nat>, now: nat) {
    NoDup(order) && forall d :: d in order <==> d in s.ttl && s.ttl[d] <= now
  }

  lemma OfflineIs(t: Arena, d: nat)
    requires AllDistinct(t) && d != 0
    ensures var r := Offline(t, d);
            && |r.slots| == |t.slots| && AllDistinct(r)
            && (forall i, x | x != 0 :: HasPlace(r, i, x) <==> HasPlace(t, i, x) && !(x == d && InNegotiation(t, i, d)))
            && (forall i, x | 0 <= i < |t.slots| && x != 0 && x != d :: InNegotiation(r, i, x) <==> InNegotiation(t, i, x))
  {
    var r := Offline(t, d);
    DisconnectedIs(t, d, |t.slots|);
    DisconnectExact(t, d);
    forall i, x | 0 <= i < |t.slots| && x != 0 && x != d ensures InNegotiation(r, i, x) <==> InNegotiation(t, i, x) {
      assert HasPlace(r, i, x) <==> HasPlace(t, i, x);
    }
  }

  /** A check takes the players it gives up out of negotiation, and no other player out of anything. */
  lemma {:induction false} TimedOutExact(s: State, order: seq<nat>)
    requires Linked(s) && AllDistinct(s.arena) && 0 !in order && NoDup(order)
    ensures var r := TimedOut(s, order);
            && Linked(r) && r.listeners == s.listeners && r.registered == s.registered
            && r.ttl == (map d | d in s.ttl && d !in order :: s.ttl[d])
            && AllDistinct(r.arena) && |r.arena.slots| == |s.arena.slots|
            && forall i, x | x != 0 ::
                 HasPlace(r.arena, i, x) <==> HasPlace(s.arena, i, x) && !(x in order && InNegotiation(s.arena, i, x))
    decreases |order|
  {
    hide Offline, Sits, InNegotiation;
    if order != [] {
      var d := order[0];
      var s1 := s.(ttl := s.ttl - {d}, arena := Offline(s.arena, d));
      OfflineIs(s.arena, d);
      TimedOutExact(s1, order[1..]);
    }
  }

  /** A player some client listens to keeps every place through a check. */
  lemma ConnectedStay(s: State, order: seq<nat>, now: nat, i: nat, x: nat)
    requires Linked(s) && AllDistinct(s.arena) && IsDue(s, order, now)
    requires x in s.listeners && x != 0
    ensures HasPlace(TimedOut(s, order).arena, i, x) <==> HasPlace(s.arena, i, x)
  {
    TimedOutExact(s, order);
  }

  /** After a check nobody's time is up any more, and nobody whose time was up is in negotiation. */
  lemma NobodyOverdue(s: State, order: seq<nat>, now: nat)
    requires Linked(s) && AllDistinct(s.arena) && IsDue(s, order, now)
    ensures var r := TimedOut(s, order);
            && (forall d | d in r.ttl :: r.ttl[d] > now && d in s.ttl && r.ttl[d] == s.ttl[d])
            && (forall i, d | d in s.ttl && s.ttl[d] <= now && 0 <= i < |s.arena.slots| && InNegotiation(s.arena, i, d) :: !HasPlace(r.arena, i, d))
  {
    TimedOutExact(s, order);
    hide HasPlace, Sits, TimedOut;
  }

  // ---------- logging out ----------

  /** The client is the one listener of player d. */
  predicate HeardOnlyBy(s: State, c: Client, d: nat) {
    d in s.listeners && s.listeners[d] == [c]
  }

  lemma LastListener(s: State, c: Client, d: nat)
    requires Linked(s) && d in s.listeners
    ensures Without(s.listeners[d], c) == [] <==> HeardOnlyBy(s, c, d)
  {
    WithoutMembers(s.listeners[d], c);
    if c in s.listeners[d] {
      OnlyListener(s.listeners[d], c);
    } else {
      WithoutAbsent(s.listeners[d], c);
    }
  }

  /** Who else listens, or a registration that ends without a logout, leaves the arena alone; without a
      logout the player that nobody hears any more gets a minute, and no other time changes. */
  lemma UnheardWithout(s: State, c: Client, d: nat, logout: bool, now: nat)
    requires Linked(s)
    ensures !(logout && HeardOnlyBy(s, c, d)) ==> Unheard(s, c, d, logout, now).arena == s.arena
    ensures Unheard(s, c, d, logout, now).ttl ==
            if HeardOnlyBy(s, c, d) && !logout && d != 0 then s.ttl[d := (now + 60) % 0x1_0000_0000] else s.ttl
  {
    if d in s.listeners {
      LastListener(s, c, d);
    }
    hide Linked, Without, Offline;
  }

  /** When the last listener of a player leaves with a logout, the player is out of every event in
      negotiation, and keeps, like everybody else, every other place. */
  lemma LogoutTakesOut(s: State, c: Client, d: nat, now: nat)
    requires Linked(s) && AllDistinct(s.arena) && HeardOnlyBy(s, c, d) && d != 0
    ensures var r := Unheard(s, c, d, true, now);
            && |r.arena.slots| == |s.arena.slots| && AllDistinct(r.arena) && r.ttl == s.ttl
            && (forall i | 0 <= i < |r.arena.slots| :: !InNegotiation(r.arena, i, d))
            && (forall i, x | x != 0 ::
                  HasPlace(r.arena, i, x) <==> HasPlace(s.arena, i, x) && !(x == d && InNegotiation(s.arena, i, d)))
  {
    LastListener(s, c, d);
    UnheardWithout(s, c, d, true, now);
    var r := Unheard(s, c, d, true, now);
    assert r.arena == Offline(s.arena, d) by { hide Linked, Without, Offline; }
    OfflineIs(s.arena, d);
    hide Unheard, Linked, AllDistinct, Offline;
    OfflineEmpties(s.arena, d);
  }

  lemma OfflineEmpties(t: Arena, d: nat)
    requires AllDistinct(t) && d != 0
    ensures forall i | 0 <= i < |Offline(t, d).slots| :: !InNegotiation(Offline(t, d), i, d)
  {
    DisconnectedIs(t, d, |t.slots|);
    DisconnectExact(t, d);
    var r := Offline(t, d);
    forall i | 0 <= i < |r.slots| ensures !InNegotiation(r, i, d) {
      assert HasPlace(r, i, d) <==> HasPlace(t, i, d) && !InNegotiation(t, i, d);
    }
  }

  lemma UnheardElsewhere(s: State, c: Client, d: nat, logout: bool, now: nat, x: nat)
    requires Linked(s) && x != d
    ensures HeardOnlyBy(Unheard(s, c, d, logout, now), c, x) <==> HeardOnlyBy(s, c, x)
  {
    hide Linked, Without, Offline;
  }

  lemma UnheardAfter(s: State, c: Client, d: nat, logout: bool, now: nat)
    requires Linked(s)
    ensures !HeardOnlyBy(Unheard(s, c, d, logout, now), c, d)
  {
    UnheardLinks(s, c, d, logout, now);
    assert HeardOnlyBy(Unheard(s, c, d, logout, now), c, d) ==> Hears(Unheard(s, c, d, logout, now), c, d);
  }

  /** The players of a list that the client alone listens to. */
  ghost predicate Leaving(s: State, c: Client, ds: seq<nat>, x: nat) {
    x in ds && HeardOnlyBy(s, c, x)
  }

  /** What a logout leaves of the arena: those who leave are out of negotiation, all others where they were. */
  ghost predicate TakenOut(s: State, r: State, c: Client, ds: seq<nat>) {
    && AllDistinct(r.arena) && |r.arena.slots| == |s.arena.slots|
    && (forall x :: HeardOnlyBy(r, c, x) <==> HeardOnlyBy(s, c, x) && x !in ds)
    && (forall i, x | 0 <= i < |s.arena.slots| && x != 0 && !Leaving(s, c, ds, x) ::
          InNegotiation(r.arena, i, x) <==> InNegotiation(s.arena, i, x))
    && (forall i, x | x != 0 ::
          HasPlace(r.arena, i, x) <==> HasPlace(s.arena, i, x) && !(Leaving(s, c, ds, x) && InNegotiation(s.arena, i, x)))
  }

  /** A request that logs players out takes out of negotiation exactly those that no other client hears. */
  lemma {:induction false} LogoutRequestIs(s: State, c: Client, ds: seq<nat>, now: nat)
    requires Linked(s) && AllDistinct(s.arena)
    ensures TakenOut(s, Each(s, c, false, true, ds, now), c, ds)
    decreases |ds|
  {
    if ds != [] {
      var n := |ds| - 1;
      var r, d := Each(s, c, false, true, ds[..n], now), ds[n];
      assert ds == ds[..n] + [d];
      LogoutRequestIs(s, c, ds[..n], now);
      EachIs(s, c, false, true, ds[..n], now);
      assert Each(s, c, false, true, ds, now) == Unheard(r, c, d, true, now);
      hide Each, Unheard, Linked;
      OneMoreOut(s, r, c, ds[..n], d, now);
    }
  }

  lemma OneMoreOut(s: State, r: State, c: Client, ds: seq<nat>, d: nat, now: nat)
    requires Linked(r) && AllDistinct(r.arena) && TakenOut(s, r, c, ds)
    ensures TakenOut(s, Unheard(r, c, d, true, now), c, ds + [d])
  {
    var z := Unheard(r, c, d, true, now);
    UnheardAfter(r, c, d, true, now);
    forall x | x != d ensures HeardOnlyBy(z, c, x) <==> HeardOnlyBy(r, c, x) {
      UnheardElsewhere(r, c, d, true, now, x);
    }
    UnheardWithout(r, c, d, true, now);
    if HeardOnlyBy(r, c, d) && d != 0 {
      LogoutTakesOut(r, c, d, now);
      StaysNegotiating(r, c, d, now);
    } else if HeardOnlyBy(r, c, d) {
      NobodyOut(r, c, now);
    }
    hide Unheard, Linked, AllDistinct, HeardOnlyBy, InNegotiation, Sits;
  }

  lemma StaysNegotiating(s: State, c: Client, d: nat, now: nat)
    requires Linked(s) && AllDistinct(s.arena) && HeardOnlyBy(s, c, d) && d != 0
    ensures var r := Unheard(s, c, d, true, now);
            forall i, x | 0 <= i < |s.arena.slots| && i < |r.arena.slots| && x != 0 && x != d ::
              InNegotiation(r.arena, i, x) <==> InNegotiation(s.arena, i, x)
  {
    LastListener(s, c, d);
    assert Unheard(s, c, d, true, now).arena == Offline(s.arena, d) by { hide Linked, Without, Offline; }
    OfflineIs(s.arena, d);
  }

  /** Player 0 stands for open places, and logging it out moves nothing. */
  lemma NobodyOut(s: State, c: Client, now: nat)
    requires Linked(s)
    ensures Unheard(s, c, 0, true, now).arena.slots == s.arena.slots
  {
    DisconnectedIs(s.arena, 0, |s.arena.slots|);
    hide Linked, Without;
  }

  // ---------- over whole runs ----------

  datatype Op =
    | Register(c: Client, d: nat)
    | Deregister(c: Client, d: nat, logout: bool)
    | HangUp(c: Client)
    | Check(order: seq<nat>)
    | Elsewhere(arena: Arena)        // any other handler of events

  datatype Moment = Moment(op: Op, now: nat)

  /** The registry, and for each player that lost its last listener the time it did. */
  datatype World = World(s: State, silent: map<nat, nat>)

  ghost predicate Fine(w: World) {
    && Linked(w.s) && AllDistinct(w.s.arena)
    && (forall d | d in w.silent :: d !in w.s.listeners)
    && (forall d | d in w.s.ttl :: d in w.silent && w.s.ttl[d] == w.silent[d] + DISCONNECT_TIMEOUT)
  }

  ghost predicate Can(w: World, m: Moment) {
    && m.now + DISCONNECT_TIMEOUT < A.U32
    && match m.op {
         case Check(order) => IsDue(w.s, order, m.now)
         case Elsewhere(arena) => AllDistinct(arena)
         case _ => true
       }
  }

  function Step(s: State, m: Moment): State {
    match m.op
    case Register(c, d) => Heard(s, c, d)
    case Deregister(c, d, logout) => Unheard(s, c, d, logout, m.now)
    case HangUp(c) => HungUp(s, c, m.now)
    case Check(order) => TimedOut(s, order)
    case Elsewhere(arena) => s.(arena := arena)
  }

  function Silence(silent: map<nat, nat>, before: State, after: State, now: nat): map<nat, nat> {
    map d | d in silent.Keys + before.listeners.Keys && d !in after.listeners :: if d in before.listeners then now else silent[d]
  }

  function Next(w: World, m: Moment): World {
    var s := Step(w.s, m);
    World(s, Silence(w.silent, w.s, s, m.now))
  }

  lemma OfflineKeeps(t: Arena, d: nat)
    requires AllDistinct(t)
    ensures AllDistinct(Offline(t, d))
  {
    if d == 0 {
      DisconnectedIs(t, d, |t.slots|);
    } else {
      OfflineIs(t, d);
    }
  }

  /** A time to live starts when the last listener goes, and is left alone until then. */
  ghost predicate KeepsTime(s: State, r: State, now: nat) {
    forall d | d in r.ttl ::
      d !in r.listeners &&
      if d in s.listeners then r.ttl[d] == now + DISCONNECT_TIMEOUT
      else d in s.ttl && r.ttl[d] == s.ttl[d]
  }

  lemma StepKeeps(s: State, m: Moment)
    requires Linked(s) && AllDistinct(s.arena) && Can(World(s, map[]), m)
    ensures Linked(Step(s, m)) && AllDistinct(Step(s, m).arena)
  {
    hide Without, AllDistinct, Offline, Including;
    match m.op
    case Register(c, d) =>
      HeardLinks(s, c, d);
    case Deregister(c, d, logout) =>
      UnheardLinks(s, c, d, logout, m.now);
      OfflineKeeps(s.arena, d);
    case HangUp(c) =>
      HungUpIs(s, c, m.now);
    case Check(order) =>
      TimedOutExact(s, order);
    case Elsewhere(_) =>
  }

  lemma TimeKept(s: State, m: Moment)
    requires Linked(s) && AllDistinct(s.arena) && Can(World(s, map[]), m)
    ensures KeepsTime(s, Step(s, m), m.now)
  {
    StepKeeps(s, m);
    assert forall d | d in Step(s, m).ttl :: d !in Step(s, m).listeners;
    assert forall d | d in s.ttl :: d !in s.listeners;
    hide Linked, Without, AllDistinct, Offline, Including;
    match m.op
    case HangUp(c) =>
      HungUpIs(s, c, m.now);
    case Check(order) =>
      TimedOutExact(s, order);
    case _ =>
  }

  lemma NextFine(w: World, m: Moment)
    requires Fine(w) && Can(w, m)
    ensures Fine(Next(w, m))
  {
    hide Step, Linked, AllDistinct;
    StepKeeps(w.s, m);
    TimeKept(w.s, m);
  }

  /** A run: the worlds before and after each moment. */
  ghost predicate Run(ws: seq<World>, ms: seq<Moment>) {
    && |ws| == |ms| + 1 && Fine(ws[0])
    && forall k | 0 <= k < |ms| :: Can(ws[k], ms[k]) && ws[k + 1] == Next(ws[k], ms[k])
  }

  lemma {:induction false} RunFine(ws: seq<World>, ms: seq<Moment>, n: nat)
    requires Run(ws, ms) && n <= |ms|
    ensures Fine(ws[n])
  {
    if n > 0 {
      RunFine(ws, ms, n - 1);
      NextFine(ws[n - 1], ms[n - 1]);
    }
  }

  /** A player is silent from the step that takes its last listener. */
  lemma FallsSilent(w: World, m: Moment, d: nat)
    requires d in Next(w, m).silent
    ensures d !in Next(w, m).s.listeners
    ensures if d in w.s.listeners then Next(w, m).silent[d] == m.now
            else d in w.silent && Next(w, m).silent[d] == w.silent[d]
  {
    hide Step;
  }

  /** The time player d fell silent: that of step k, after which nobody has listened to it. */
  lemma {:induction false} SilentSince(ws: seq<World>, ms: seq<Moment>, n: nat, d: nat) returns (k: nat)
    requires Run(ws, ms) && n <= |ms| && d in ws[n].silent
    ensures k <= n && forall j | k <= j <= n :: d !in ws[j].s.listeners
    ensures if k == 0 then d in ws[0].silent && ws[n].silent[d] == ws[0].silent[d]
            else ws[n].silent[d] == ms[k - 1].now && d in ws[k - 1].s.listeners
  {
    assert d in ws[0].silent ==> d !in ws[0].s.listeners;
    hide Next, Can, Fine;
    if n == 0 {
      k := 0;
      return;
    }
    assert ws[n - 1 + 1] == Next(ws[n - 1], ms[n - 1]);
    FallsSilent(ws[n - 1], ms[n - 1], d);
    if d in ws[n - 1].s.listeners {
      k := n;
    } else {
      k := SilentSince(ws, ms, n - 1, d);
    }
  }

  /** No player is given up before a whole minute without any listener. */
  lemma GivenUpAfterSilence(ws: seq<World>, ms: seq<Moment>, order: seq<nat>, now: nat, d: nat) returns (k: nat)
    requires Run(ws, ms) && IsDue(ws[|ms|].s, order, now) && d in order
    ensures k <= |ms| && forall j | k <= j <= |ms| :: d !in ws[j].s.listeners
    ensures if k == 0 then d in ws[0].silent && now >= ws[0].silent[d] + DISCONNECT_TIMEOUT
            else now >= ms[k - 1].now + DISCONNECT_TIMEOUT && d in ws[k - 1].s.listeners
  {
    RunFine(ws, ms, |ms|);
    k := SilentSince(ws, ms, |ms|, d);
  }
}

/** The arena server's registry of listeners, as connections come, ask and go. */
module ListenerRegistry {
  import opened Lists
  import opened EventTable
  import opened EventPlayers
  import opened Listeners
  import A = ArenaEvents
  import E = EventList

  /** The place of x, or -1. */
  method Find<T(==)>(list: seq<T>, x: T) returns (k: int)
    ensures -1 <= k < |list| && (k == -1 <==> x !in list)
    ensures k >= 0 ==> list[k] == x
  {
    for i := 0 to |list|
      invariant x !in list[..i]
    {
      if list[i] == x {
        return i;
      }
    }
    return -1;
  }

  /** Takes the first x out and keeps the order of the rest. */
  method Removing<T(==)>(list: seq<T>, x: T) returns (rest: seq<T>)
    requires NoDup(list)
    ensures rest == Without(list, x)
  {
    var k := Find(list, x);
    if k == -1 {
      WithoutAbsent(list, x);
      return list;
    }
    rest := list[..k] + list[k + 1..];
    assert list == rest[..k] + [x] + rest[k..];
    WithoutInserted(rest, k, x);
  }

  class Registry {
    var listeners: map<nat, seq<Client>>
    var ttl: map<nat, nat>
    var gathered: seq<Client>
    const arena: E.EventList
    ghost var clients: set<Client>

    ghost function View(): State
      reads this, clients, arena
      requires Homed(arena.events)
    {
      State(listeners, map c | c in clients :: c.registered, ttl, arena.View())
    }

    ghost predicate Valid()
      reads this, clients, arena
    {
      Homed(arena.events) && Linked(View())
    }

    constructor (arena: E.EventList)
      requires Homed(arena.events)
      ensures Valid() && this.arena == arena && clients == {}
      ensures View() == State(map[], map[], map[], arena.View())
    {
      this.arena := arena;
      listeners, ttl, gathered, clients := map[], map[], [], {};
    }

    method Connect() returns (c: Client)
      requires Valid()
      modifies `clients
      ensures Valid() && fresh(c) && clients == old(clients) + {c}
      ensures View() == old(View()).(registered := old(View()).registered[c := []])
    {
      c := new Client();
      clients := clients + {c};
      assert View().registered == old(View()).registered[c := []];
    }

    method SetPlayerTTL(d: nat, clear: bool, now: nat)
      modifies `ttl
      ensures ttl == if d == 0 then old(ttl) else if clear then old(ttl) - {d} else Doomed(old(ttl), d, now)
    {
      if d == 0 {
        return;
      }
      if clear {
        ttl := ttl - {d};
      } else {
        ttl := ttl[d := A.Sum(now, DISCONNECT_TIMEOUT)];
      }
    }

    method AddListener(c: Client, d: nat)
      modifies this`listeners, this`gathered
      ensures var list := if d in old(listeners) then old(listeners)[d] else [];
              listeners == old(listeners)[d := Including(list, c)]
    {
      if d !in listeners {
        listeners := listeners[d := []];
      }
      var k := Find(listeners[d], c);
      if k == -1 {
        listeners := listeners[d := listeners[d] + [c]];
        ClientListFromClient(c, false);
      }
    }

    /** The listener's own side of the registry, given what its list is to become. */
    method SetRegistered(c: Client, list: seq<nat>)
      requires c in clients
      modifies c
      ensures c.registered == list
      ensures (map x | x in clients :: x.registered) == old(map x | x in clients :: x.registered)[c := list]
    {
      c.registered := list;
    }

    method AddRegistered(c: Client, d: nat)
      requires c in clients
      modifies c
      ensures c.registered == Including(old(c.registered), d)
      ensures (map x | x in clients :: x.registered) == old(map x | x in clients :: x.registered)[c := c.registered]
    {
      var k := Find(c.registered, d);
      if k == -1 {
        SetRegistered(c, c.registered + [d]);
      }
    }

    method AddRegistration(c: Client, d: nat)
      requires Valid() && c in clients
      modifies this`listeners, this`ttl, this`gathered, c
      ensures Valid() && View() == Heard(old(View()), c, d)
    {
      ghost var before := View();
      HeardLinks(before, c, d);
      assert c.registered == RegisteredOf(before, c);
      hide Linked, NoDup, Homed, Including;
      AddListener(c, d);
      AddRegistered(c, d);
      SetPlayerTTL(d, true, 0);
      ghost var after := Heard(before, c, d);
      assert View().registered == after.registered;
      assert listeners == after.listeners;
      assert ttl == after.ttl;
    }

    method RemoveListener(c: Client, d: nat, logout: bool, now: nat)
      requires Homed(arena.events) && (d in listeners ==> NoDup(listeners[d]))
      modifies this`listeners, this`ttl, arena
      ensures Homed(arena.events) && View() == Quieter(old(View()), c, d, logout, now)
    {
      if d !in listeners {
        return;
      }
      var rest := Removing(listeners[d], c);
      listeners := listeners[d := rest];
      if rest == [] {
        listeners := listeners - {d};
        if logout {
          arena.PlayerDisconnected(d);
        } else {
          SetPlayerTTL(d, false, now);
        }
      }
    }

    method RemoveRegistered(c: Client, d: nat)
      requires c in clients && NoDup(c.registered)
      modifies c
      ensures c.registered == Without(old(c.registered), d)
      ensures (map x | x in clients :: x.registered) == old(map x | x in clients :: x.registered)[c := c.registered]
    {
      var list := Removing(c.registered, d);
      SetRegistered(c, list);
    }

    method RemoveRegistration(c: Client, d: nat, logout: bool, now: nat)
      requires Valid() && c in clients
      modifies this`listeners, this`ttl, c, arena
      ensures Valid() && View() == Unheard(old(View()), c, d, logout, now)
    {
      ghost var before := View();
      UnheardLinks(before, c, d, logout, now);
      assert RegisteredOf(before, c) == c.registered && NoDup(c.registered);
      assert d in listeners ==> NoDup(listeners[d]);
      hide Linked, NoDup, Without, Homed, Quieter;
      RemoveListener(c, d, logout, now);
      RemoveRegistered(c, d);
    }

    method RemoveAllRegistrations(c: Client, now: nat)
      requires Valid() && c in clients
      modifies this`listeners, this`ttl, c, arena
      ensures Valid() && c.registered == []
      ensures View() == AllUnheard(old(View()), c, RegisteredOf(old(View()), c), now)
    {
      while |c.registered| > 0
        invariant Valid()
        invariant AllUnheard(View(), c, c.registered, now) == AllUnheard(old(View()), c, old(c.registered), now)
        decreases |c.registered|
      {
        FirstGoes(c.registered);
        RemoveRegistration(c, c.registered[0], false, now);
      }
    }

    method Disconnect(c: Client, now: nat)
      requires Valid() && c in clients
      modifies this, c, arena
      ensures Valid() && clients == old(clients) - {c}
      ensures View() == HungUp(old(View()), c, now)
    {
      HungUpIs(View(), c, now);
      RemoveAllRegistrations(c, now);
      ghost var before := View();
      clients := clients - {c};
      assert View() == before.(registered := before.registered - {c});
    }

    method HandleRegisterPlayers(c: Client, full: bool, add: bool, logout: bool, dbids: seq<nat>, now: nat)
      requires Valid() && c in clients
      modifies this`listeners, this`ttl, this`gathered, c, arena
      ensures Valid() && View() == Asked(old(View()), c, full, add, logout, dbids, now)
    {
      if full {
        RemoveAllRegistrations(c, now);
      }
      ghost var first := View();
      for i := 0 to |dbids|
        invariant Valid() && View() == Each(first, c, add, logout, dbids[..i], now)
      {
        assert dbids[..i + 1][..i] == dbids[..i];
        if add {
          AddRegistration(c, dbids[i]);
        } else {
          RemoveRegistration(c, dbids[i], logout, now);
        }
      }
      assert dbids[..|dbids|] == dbids;
    }

    // ---------- the client list ----------

    method ClientListInit(add: bool)
      modifies `gathered
      ensures gathered == if add then old(gathered) else []
    {
      if !add {
        gathered := [];
      }
    }

    method ClientListFromClient(c: Client, add: bool)
      modifies `gathered
      ensures gathered == Gathered(if add then old(gathered) else [], [c])
    {
      ClientListInit(add);
      var k := Find(gathered, c);
      if k == -1 {
        gathered := gathered + [c];
      }
    }

    method ClientListFromDbid(d: nat, add: bool)
      requires Homed(arena.events)
      modifies `gathered
      ensures gathered == Gathered(if add then old(gathered) else [], HeardBy(View(), d))
    {
      ClientListInit(add);
      if d in listeners {
        var list := listeners[d];
        var i := |list|;
        ghost var first := gathered;
        assert list[..i] == list;
        while i > 0
          invariant 0 <= i <= |list|
          invariant Gathered(gathered, list[..i]) == Gathered(first, list)
        {
          i := i - 1;
          assert list[..i + 1][..i] == list[..i];
          var k := Find(gathered, list[i]);
          if k == -1 {
            gathered := gathered + [list[i]];
          }
        }
      }
    }

    method ClientListFromEvent(party: seq<Player>, add: bool)
      requires Homed(arena.events)
      modifies `gathered
      ensures gathered == GatheredFor(if add then old(gathered) else [], View(), party)
    {
      ClientListInit(add);
      ghost var s, first := View(), gathered;
      var i := |party|;
      assert party[..i] == party;
      while i > 0
        invariant 0 <= i <= |party| && View() == s
        invariant GatheredFor(gathered, s, party[..i]) == GatheredFor(first, s, party)
      {
        i := i - 1;
        assert party[..i + 1][..i] == party[..i];
        ClientListFromDbid(party[i].dbid, true);
      }
    }

    // ---------- players given up ----------

    /** The hash is visited in no particular order. */
    method CheckForPlayerDisconnects(now: nat) returns (order: seq<nat>)
      requires Valid()
      modifies this`ttl, arena
      ensures IsDue(old(View()), order, now)
      ensures Homed(arena.events) && View() == TimedOut(old(View()), order)
    {
      order := [];
      var rest := ttl.Keys;
      while rest != {}
        invariant Homed(arena.events) && View() == TimedOut(old(View()), order)
        invariant NoDup(order) && rest <= ttl.Keys
        invariant forall d :: d in order <==> d in old(ttl) && old(ttl)[d] <= now && d !in rest
        invariant forall d | d in rest :: ttl[d] == old(ttl)[d]
        decreases rest
      {
        var d :| d in rest;
        rest := rest - {d};
        if ttl[d] <= now {
          TimedOutNext(old(View()), order, d);
          arena.PlayerDisconnected(d);
          ttl := ttl - {d};
          order := order + [d];
        }
      }
    }
  }

  lemma {:induction false} TimedOutNext(s: State, order: seq<nat>, d: nat)
    ensures var r := TimedOut(s, order);
            TimedOut(s, order + [d]) == r.(ttl := r.ttl - {d}, arena := Offline(r.arena, d))
    decreases |order|
  {
    if order != [] {
      assert (order + [d])[1..] == order[1..] + [d];
      TimedOutNext(s.(ttl := s.ttl - {order[0]}, arena := Offline(s.arena, order[0])), order[1..], d);
    }
  }
}

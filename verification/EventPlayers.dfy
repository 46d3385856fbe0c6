/**
 The players of an arena event: joining, leaving, the places a creator opens or trims, and the
 visit to every event that takes a disconnected player out of those still being negotiated.
 */
module EventPlayers {
  import opened Options
  import opened EventTable
  import A = ArenaEvents

  datatype Outcome = Joined | AlreadyJoined | NotEligible | EventStarting | NoMatchingSlots

  predicate Sits(party: seq<Player>, d: nat) {
    exists k :: 0 <= k < |party| && party[k].dbid == d
  }

  /** No player has two places. */
  predicate Distinct(party: seq<Player>) {
    forall i, j | 0 <= i < j < |party| && party[i].dbid != 0 :: party[i].dbid != party[j].dbid
  }

  function Count(party: seq<Player>): nat {
    if party == [] then 0 else Count(party[..|party| - 1]) + if party[|party| - 1].dbid != 0 then 1 else 0
  }

  lemma {:induction false} CountUpdated(party: seq<Player>, k: nat, p: Player)
    requires k < |party|
    ensures Count(party[k := p]) == Count(party) + (if p.dbid != 0 then 1 else 0) - (if party[k].dbid != 0 then 1 else 0)
  {
    var n := |party| - 1;
    if k == n {
      assert party[k := p][..n] == party[..n];
    } else {
      assert party[k := p][..n] == party[..n][k := p];
      CountUpdated(party[..n], k, p);
    }
  }

  lemma {:induction false} CountZero(party: seq<Player>)
    ensures Count(party) == 0 <==> forall k | 0 <= k < |party| :: party[k].dbid == 0
  {
    if party != [] {
      CountZero(party[..|party| - 1]);
    }
  }

  // ---------- joining ----------

  predicate Suits(p: Player, archetype: Option<string>) {
    p.dbid == 0 && (p.wanted.None? || p.wanted == archetype)
  }

  /** The first open place from k on that suits the player, or the number of places. */
  function OpenPlace(party: seq<Player>, archetype: Option<string>, k: nat): (i: nat)
    requires k <= |party|
    ensures k <= i <= |party| && (i < |party| ==> Suits(party[i], archetype))
    ensures forall j | k <= j < i :: !Suits(party[j], archetype)
    decreases |party| - k
  {
    if k == |party| || Suits(party[k], archetype) then k else OpenPlace(party, archetype, k + 1)
  }

  function Join(e: Event, d: nat, archetype: Option<string>, eligible: bool): (Event, Outcome) {
    if d != 0 && Sits(e.party, d) then (e, AlreadyJoined)
    else if !eligible then (e, NotEligible)
    else if e.leaderReady then (e, EventStarting)
    else if |e.party| < e.maxPlayers then
      (e.(party := e.party + [Player(d, None, archetype, false)]), Joined)
    else
      var i := OpenPlace(e.party, archetype, 0);
      if i == |e.party| then (e, NoMatchingSlots)
      else (e.(party := e.party[i := e.party[i].(dbid := d, archetype := archetype)]), Joined)
  }

  lemma JoinedIff(e: Event, d: nat, archetype: Option<string>, eligible: bool)
    ensures var (e', out) := Join(e, d, archetype, eligible);
            && (out.Joined? <==>
                && (d == 0 || !Sits(e.party, d)) && eligible && !e.leaderReady
                && (|e.party| < e.maxPlayers || exists k :: 0 <= k < |e.party| && Suits(e.party[k], archetype)))
            && (!out.Joined? ==> e' == e)
  {
  }

  /** Joining adds the one player, takes no place twice, and stays within the event's size. */
  lemma JoinExact(e: Event, d: nat, archetype: Option<string>, eligible: bool)
    requires Distinct(e.party)
    ensures var (e', out) := Join(e, d, archetype, eligible);
            && Distinct(e'.party)
            && (forall x | x != 0 :: Sits(e'.party, x) <==> Sits(e.party, x) || (out.Joined? && x == d))
            && Count(e'.party) == Count(e.party) + (if out.Joined? && d != 0 then 1 else 0)
            && (|e'.party| <= |e.party| || |e'.party| <= e.maxPlayers)
            && (forall k | 0 <= k < |e.party| ::
                  k < |e'.party| && (e'.party[k] == e.party[k] || (Suits(e.party[k], archetype) && |e.party| >= e.maxPlayers)))
  {
    var (e', out) := Join(e, d, archetype, eligible);
    hide Sits, Count;
    if out.Joined? {
      if |e.party| < e.maxPlayers {
        Appended(e.party, Player(d, None, archetype, false));
      } else {
        var i := OpenPlace(e.party, archetype, 0);
        CountUpdated(e.party, i, e'.party[i]);
        Replaced(e.party, i, e'.party[i]);
      }
    }
  }

  /** A player goes to the back while there are fewer places than the maximum, and else into the first
      open place that was set aside for nobody or for that archetype. */
  lemma JoinTakes(e: Event, d: nat, archetype: Option<string>, eligible: bool)
    requires Join(e, d, archetype, eligible).1.Joined?
    ensures var e' := Join(e, d, archetype, eligible).0;
            && e' == e.(party := e'.party)
            && if |e.party| < e.maxPlayers then e'.party == e.party + [Player(d, None, archetype, false)]
               else exists k ::
                 && 0 <= k < |e.party| && e.party[k].dbid == 0 && (e.party[k].wanted == None || e.party[k].wanted == archetype)
                 && e'.party == e.party[k := e.party[k].(dbid := d, archetype := archetype)]
                 && forall j | 0 <= j < k :: e.party[j].dbid != 0 || (e.party[j].wanted != None && e.party[j].wanted != archetype)
  {
    if |e.party| >= e.maxPlayers {
      var k := OpenPlace(e.party, archetype, 0);
      assert Suits(e.party[k], archetype);
    }
  }

  /** An event has started from its first round on, and has not before. */
  lemma PlayingIs(p: A.Phase)
    ensures Playing(p) <==> p in {A.StartRound, A.RunRound, A.EndRound, A.Intermission, A.PayoutWait,
                                  A.PrizePayout, A.Ended, A.CancelRefund, A.Cancelled}
  {
  }

  lemma Appended(party: seq<Player>, p: Player)
    ensures forall x :: Sits(party + [p], x) <==> Sits(party, x) || x == p.dbid
    ensures Count(party + [p]) == Count(party) + if p.dbid != 0 then 1 else 0
    ensures Distinct(party) && (p.dbid == 0 || !Sits(party, p.dbid)) ==> Distinct(party + [p])
  {
    var r := party + [p];
    assert r[..|party|] == party;
    forall x ensures Sits(r, x) <==> Sits(party, x) || x == p.dbid {
      if k :| 0 <= k < |party| && party[k].dbid == x {
        assert r[k].dbid == x;
      }
      assert r[|party|].dbid == p.dbid;
    }
  }

  lemma Replaced(party: seq<Player>, i: nat, p: Player)
    requires i < |party|
    ensures forall x | x != party[i].dbid :: Sits(party[i := p], x) <==> Sits(party, x) || x == p.dbid
    ensures Distinct(party) ==> !Sits(party[i := p], party[i].dbid) || party[i].dbid == 0 || p.dbid == party[i].dbid
    ensures Distinct(party) && (p.dbid == 0 || p.dbid == party[i].dbid || !Sits(party, p.dbid)) ==> Distinct(party[i := p])
  {
    forall x | x != party[i].dbid ensures Sits(party[i := p], x) <==> Sits(party, x) || x == p.dbid {
      if Sits(party, x) {
        var k :| 0 <= k < |party| && party[k].dbid == x;
        assert party[i := p][k].dbid == x;
      }
      if x == p.dbid {
        assert party[i := p][i].dbid == x;
      }
    }
  }

  // ---------- leaving ----------

  /** The first place of player d from k on, or the number of places. */
  function PlaceOf(party: seq<Player>, d: nat, k: nat): (i: nat)
    requires k <= |party|
    ensures k <= i <= |party| && (i < |party| ==> party[i].dbid == d)
    ensures forall j | k <= j < i :: party[j].dbid != d
    decreases |party| - k
  {
    if k == |party| || party[k].dbid == d then k else PlaceOf(party, d, k + 1)
  }

  /** Who runs the event when its creator leaves: the first other player, if there is one. */
  function Heir(party: seq<Player>, creator: nat, k: nat): (h: nat)
    requires k <= |party|
    ensures h == creator || (h != 0 && Sits(party, h))
    ensures h == creator ==> forall j | k <= j < |party| :: party[j].dbid == 0 || party[j].dbid == creator
    decreases |party| - k
  {
    if k == |party| then creator
    else if party[k].dbid != 0 && party[k].dbid != creator then party[k].dbid
    else Heir(party, creator, k + 1)
  }

  function Leave(e: Event, d: nat): Event {
    if d == 0 || e.party == [] then e
    else
      var i := PlaceOf(e.party, d, 0);
      if Playing(e.phase) && i < |e.party| then e.(party := e.party[i := e.party[i].(dropped := true)])
      else
        e.(creator := if e.creator == d then Heir(e.party, e.creator, 0) else e.creator,
           leaderReady := false,
           party := if i < |e.party| then e.party[i := e.party[i].(dbid := 0)] else e.party)
  }

  /** The event is deleted when this player's leaving has emptied it. */
  predicate Deserted(e: Event, d: nat) {
    d != 0 && Sits(e.party, d) && e.phase.Negotiating? && Count(Leave(e, d).party) == 0 && Leave(e, d).creator != 0
  }

  /** Leaving frees the player's place unless the event has started, and no other place. */
  lemma LeaveExact(e: Event, d: nat)
    requires d != 0 && Distinct(e.party)
    ensures Distinct(Leave(e, d).party) && |Leave(e, d).party| == |e.party|
    ensures Sits(Leave(e, d).party, d) <==> Sits(e.party, d) && Playing(e.phase)
    ensures forall x | x != 0 && x != d :: Sits(Leave(e, d).party, x) <==> Sits(e.party, x)
    ensures forall k | 0 <= k < |e.party| && e.party[k].dbid != d :: Leave(e, d).party[k] == e.party[k]
    ensures Count(Leave(e, d).party) == Count(e.party) - if Sits(e.party, d) && !Playing(e.phase) then 1 else 0
  {
    var i := PlaceOf(e.party, d, 0);
    if i < |e.party| {
      var p := Leave(e, d).party[i];
      assert Leave(e, d).party == e.party[i := p];
      CountUpdated(e.party, i, p);
      Replaced(e.party, i, p);
      assert p.dbid == d ==> Leave(e, d).party[i].dbid == d;
    }
  }

  /** A player who leaves a started event is marked as dropped there and nothing else changes; before
      the start, leaving takes the leader's word back. */
  lemma LeaveMarks(e: Event, d: nat)
    requires d != 0 && Distinct(e.party)
    ensures Playing(e.phase) && Sits(e.party, d) ==>
              Leave(e, d) == e.(party := Leave(e, d).party)
              && forall k | 0 <= k < |e.party| ::
                   Leave(e, d).party[k] == if e.party[k].dbid == d then e.party[k].(dropped := true) else e.party[k]
    ensures !Playing(e.phase) && Sits(e.party, d) ==> !Leave(e, d).leaderReady
  {
  }

  /** An event is deleted by a leave exactly if it is in negotiation, a player runs it, and nobody else is in it. */
  lemma DesertedIff(e: Event, d: nat)
    requires Distinct(e.party)
    ensures Deserted(e, d) <==>
            d != 0 && Sits(e.party, d) && e.phase.Negotiating? && e.creator != 0
            && forall k | 0 <= k < |e.party| :: e.party[k].dbid == 0 || e.party[k].dbid == d
  {
    if d != 0 && Sits(e.party, d) && e.phase.Negotiating? {
      LeaveExact(e, d);
      CountZero(Leave(e, d).party);
      LeavesOthers(e, d);
      hide Count;
    }
  }

  lemma LeavesOthers(e: Event, d: nat)
    requires d != 0 && Distinct(e.party) && Sits(e.party, d) && e.phase.Negotiating?
    ensures (forall k | 0 <= k < |Leave(e, d).party| :: Leave(e, d).party[k].dbid == 0) <==>
            forall k | 0 <= k < |e.party| :: e.party[k].dbid == 0 || e.party[k].dbid == d
    ensures Leave(e, d).creator == 0 <==> e.creator == 0
  {
    var i := PlaceOf(e.party, d, 0);
    var left := Leave(e, d).party;
    assert left == e.party[i := e.party[i].(dbid := 0)];
    assert forall k | 0 <= k < |e.party| && k != i :: e.party[k].dbid != d && left[k] == e.party[k];
    assert e.party[i].dbid == d && left[i].dbid == 0;
    LeavesCreator(e, d);
  }

  lemma LeavesCreator(e: Event, d: nat)
    ensures Leave(e, d).creator == 0 <==> e.creator == 0
  {
  }

  /** As long as an event with a creator has players, its creator is one of them. */
  lemma CreatorHandedOver(e: Event, d: nat)
    requires d != 0 && Distinct(e.party) && e.creator != 0 && Sits(e.party, e.creator)
    ensures var e' := Leave(e, d); Sits(e'.party, e'.creator) || Count(e'.party) == 0
  {
    LeaveExact(e, d);
    if e.creator == d && !Playing(e.phase) {
      CountZero(Leave(e, d).party);
    }
  }

  /** Joining and then leaving before the start gives every place its player back. */
  lemma JoinThenLeave(e: Event, d: nat, archetype: Option<string>, eligible: bool)
    requires d != 0 && !Playing(e.phase) && e.creator != d && Join(e, d, archetype, eligible).1.Joined?
    ensures var e' := Leave(Join(e, d, archetype, eligible).0, d);
            && e'.creator == e.creator && e'.leaderReady == e.leaderReady
            && |e.party| <= |e'.party| <= |e.party| + 1
            && (forall k | 0 <= k < |e.party| :: e'.party[k].dbid == e.party[k].dbid)
            && (|e'.party| > |e.party| ==> e'.party[|e.party|].dbid == 0)
  {
  }

  // ---------- the places of an event ----------

  function Resized(party: seq<Player>, max: nat): seq<Player> {
    if |party| >= max then party[..max]
    else party + seq(max - |party|, _ => Player(0, None, None, false))
  }

  /** Fitting the places to the maximum keeps every player exactly when all sit below it. */
  lemma ResizedKeepsIff(party: seq<Player>, max: nat)
    requires Distinct(party)
    ensures |Resized(party, max)| == max && Distinct(Resized(party, max))
    ensures (forall x | x != 0 :: Sits(Resized(party, max), x) <==> Sits(party, x)) <==>
            (forall k | max <= k < |party| :: party[k].dbid == 0)
  {
    var r := Resized(party, max);
    assert forall k | 0 <= k < |party| && k < max :: r[k] == party[k];
    if k :| max <= k < |party| && party[k].dbid != 0 {
      assert Sits(party, party[k].dbid) && !Sits(r, party[k].dbid);
    } else {
      forall x | x != 0 ensures Sits(r, x) <==> Sits(party, x) {
        if Sits(party, x) {
          var k :| 0 <= k < |party| && party[k].dbid == x;
          assert r[k].dbid == x;
        }
      }
    }
  }

  /** Places are added open at the back, or taken away there, and nobody is moved. */
  lemma ResizedPlaces(party: seq<Player>, max: nat, k: nat)
    requires k < max
    ensures Resized(party, max)[k] == if k < |party| then party[k] else Player(0, None, None, false)
  {
  }

  /** The places that have a player, in order. */
  function Occupied(party: seq<Player>): seq<Player> {
    if party == [] then []
    else if party[0].dbid != 0 then [party[0]] + Occupied(party[1..])
    else Occupied(party[1..])
  }

  lemma {:induction false} OccupiedIs(party: seq<Player>)
    ensures !Sits(Occupied(party), 0)
    ensures forall x | x != 0 :: Sits(Occupied(party), x) <==> Sits(party, x)
    ensures Distinct(party) ==> Distinct(Occupied(party))
  {
    if party != [] {
      OccupiedIs(party[1..]);
      var rest := Occupied(party[1..]);
      forall x | x != 0 ensures Sits(Occupied(party), x) <==> Sits(party, x) {
        assert Sits(party, x) <==> party[0].dbid == x || Sits(party[1..], x) by {
          SitsSplit(party, x);
        }
        if party[0].dbid != 0 {
          SitsSplit([party[0]] + rest, x);
          assert ([party[0]] + rest)[1..] == rest;
        }
      }
      if party[0].dbid != 0 {
        SitsSplit([party[0]] + rest, 0);
        assert ([party[0]] + rest)[1..] == rest;
        if Distinct(party) {
          assert !Sits(party[1..], party[0].dbid);
        }
      }
    }
  }

  /** Nobody is moved or changed: what is dropped are the open places, wherever they are. */
  lemma {:induction false} OccupiedParts(a: seq<Player>, p: Player, b: seq<Player>)
    ensures Occupied(a + [p] + b) == Occupied(a) + (if p.dbid == 0 then [] else [p]) + Occupied(b)
    decreases |a|
  {
    if a == [] {
      assert (a + [p] + b)[1..] == b;
    } else {
      assert (a + [p] + b)[1..] == a[1..] + [p] + b;
      OccupiedParts(a[1..], p, b);
    }
  }

  lemma SitsSplit(party: seq<Player>, x: nat)
    requires party != []
    ensures Sits(party, x) <==> party[0].dbid == x || Sits(party[1..], x)
  {
    if k :| 0 < k < |party| && party[k].dbid == x {
      assert party[1..][k - 1].dbid == x;
    }
    if k :| 0 <= k < |party[1..]| && party[1..][k].dbid == x {
      assert party[k + 1].dbid == x;
    }
  }

  // ---------- a disconnected player ----------

  predicate InNegotiation(t: Table, i: nat, d: nat)
    requires i < |t.slots|
  {
    t.slots[i].Some? && t.slots[i].value.phase.Negotiating? && Sits(t.slots[i].value.party, d)
  }

  function Removed(t: Table, i: nat, d: nat): (r: Table)
    requires i < |t.slots| && t.slots[i].Some? && Homed(t.slots)
    ensures Homed(r.slots) && r.next >= t.next
    ensures r.slots == t.slots[i := if Deserted(t.slots[i].value, d) then None else Some(Leave(t.slots[i].value, d))]
  {
    var e := t.slots[i].value;
    var left := t.(slots := t.slots[i := Some(Leave(e, d))]);
    if Deserted(e, d) then Deleted(left, e.eventid) else left
  }

  /** From slot n - 1 down to the first, out of every event in negotiation. */
  function Disconnected(t: Table, d: nat, n: nat): Table
    requires n <= |t.slots| && Homed(t.slots)
    decreases n
  {
    if n == 0 then t
    else Disconnected(if InNegotiation(t, n - 1, d) then Removed(t, n - 1, d) else t, d, n - 1)
  }

  lemma {:induction false} DisconnectedIs(t: Table, d: nat, n: nat)
    requires n <= |t.slots| && Homed(t.slots)
    decreases n
    ensures var r := Disconnected(t, d, n);
            && |r.slots| == |t.slots| && Homed(r.slots) && r.next >= t.next
            && forall i | 0 <= i < |t.slots| ::
                 r.slots[i] == if i < n && InNegotiation(t, i, d) then
                                 if Deserted(t.slots[i].value, d) then None else Some(Leave(t.slots[i].value, d))
                               else t.slots[i]
  {
    hide Removed, Leave, Deserted;
    if n > 0 {
      DisconnectedIs(if InNegotiation(t, n - 1, d) then Removed(t, n - 1, d) else t, d, n - 1);
    }
  }

  ghost predicate AllDistinct(t: Table) {
    forall i | 0 <= i < |t.slots| && t.slots[i].Some? :: Distinct(t.slots[i].value.party)
  }

  predicate HasPlace(t: Table, i: nat, x: nat) {
    i < |t.slots| && t.slots[i].Some? && Sits(t.slots[i].value.party, x)
  }

  /** The player is out of every event in negotiation, and nobody else has lost a place anywhere. */
  lemma DisconnectExact(t: Table, d: nat)
    requires Homed(t.slots) && AllDistinct(t) && d != 0
    ensures var r := Disconnected(t, d, |t.slots|);
            && AllDistinct(r)
            && forall i, x | x != 0 ::
                 HasPlace(r, i, x) <==> HasPlace(t, i, x) && !(x == d && InNegotiation(t, i, d))
  {
    var r := Disconnected(t, d, |t.slots|);
    DisconnectedIs(t, d, |t.slots|);
    forall i | 0 <= i < |t.slots| && t.slots[i].Some?
      ensures r.slots[i].Some? ==> Distinct(r.slots[i].value.party)
      ensures forall x | x != 0 :: HasPlace(r, i, x) <==> HasPlace(t, i, x) && !(x == d && InNegotiation(t, i, d))
    {
      LeaveExact(t.slots[i].value, d);
      CountZero(Leave(t.slots[i].value, d).party);
    }
  }
}

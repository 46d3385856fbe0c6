/**
 Packets that cannot be handled yet: a queue whose packets are stamped with the tick they
 were queued in.  A tick dispatches packets until it meets one that has been queued again
 during this very tick, or until a handler reports an error.
 */
module DelayedPackets {

  const U32 := 0x1_0000_0000

  datatype Outcome = Handled | Requeued | Error

  /** A queued packet, with the unsigned 32-bit id of the tick it was queued in. */
  datatype Waiting = Waiting(packet: nat, stamp: nat)

  /** How many of n dispatches a tick makes: up to and with the first error. */
  function Dispatches(n: nat, decide: nat -> Outcome): (k: nat)
    ensures k <= n
    ensures forall i | 0 <= i < k - 1 :: decide(i) != Error
    ensures k < n ==> k > 0 && decide(k - 1) == Error
  {
    if n == 0 then 0
    else
      var k := Dispatches(n - 1, decide);
      if k < n - 1 || (k > 0 && decide(k - 1) == Error) then k else n
  }

  lemma {:induction false} DispatchesAre(n: nat, k: nat, decide: nat -> Outcome)
    requires k <= n && (forall i | 0 <= i < k - 1 :: decide(i) != Error)
    requires k < n ==> k > 0 && decide(k - 1) == Error
    ensures Dispatches(n, decide) == k
  {
    if n > 0 {
      DispatchesAre(n - 1, if k < n then k else n - 1, decide);
    }
  }

  function Packets(ws: seq<Waiting>): seq<nat> {
    seq(|ws|, i requires 0 <= i < |ws| => ws[i].packet)
  }

  /** The dispatched packets whose dispatch ended so, or (freed) otherwise, in order. */
  function Ending(ps: seq<nat>, decide: nat -> Outcome, requeued: bool): seq<nat> {
    if ps == [] then []
    else
      Ending(ps[..|ps| - 1], decide, requeued)
      + (if (decide(|ps| - 1) == Requeued) == requeued then [ps[|ps| - 1]] else [])
  }

  function Stamped(ps: seq<nat>, tickId: nat): seq<Waiting> {
    seq(|ps|, i requires 0 <= i < |ps| => Waiting(ps[i], tickId))
  }

  /** What goes from the front of a queue, and comes to its back. */
  lemma ThroughQueue<T>(ahead: seq<T>, behind: seq<T>, back: seq<T>)
    requires ahead != []
    ensures (ahead + behind)[0] == ahead[0]
    ensures (ahead + behind)[1..] + back == ahead[1..] + (behind + back)
  {
  }

  lemma EndingNext(ws: seq<Waiting>, k: nat, decide: nat -> Outcome, requeued: bool)
    requires k < |ws|
    ensures Packets(ws[..k + 1]) == Packets(ws[..k]) + [ws[k].packet]
    ensures Ending(Packets(ws[..k + 1]), decide, requeued) ==
            Ending(Packets(ws[..k]), decide, requeued) + (if (decide(k) == Requeued) == requeued then [ws[k].packet] else [])
  {
    assert Packets(ws[..k + 1])[..k] == Packets(ws[..k]);
  }

  class DelayedQueue {
    var queue: seq<Waiting>
    var tickId: nat              // unsigned 32 bits
    var dispatched: seq<nat>
    var freed: seq<nat>
    ghost var ages: seq<nat>     // the ticks, not wrapped, in which the packets were queued
    ghost var ticks: nat

    /** Packets of older ticks first, then those of the current one. */
    ghost predicate Valid()
      reads this
    {
      && tickId == ticks % U32 && |ages| == |queue|
      && (forall i | 0 <= i < |queue| :: queue[i].stamp == ages[i] % U32 && ages[i] <= ticks)
      && (forall i, j | 0 <= i < j < |queue| :: ages[i] <= ages[j])
    }

    constructor ()
      ensures Valid() && queue == [] && dispatched == freed == []
    {
      queue, tickId, dispatched, freed, ages, ticks := [], 0, [], [], [], 0;
    }

    /** Queues a packet for a later tick. */
    method DelayUntilLater(packet: nat)
      requires Valid()
      modifies `queue, `ages
      ensures Valid() && queue == old(queue) + [Waiting(packet, tickId)] && ages == old(ages) + [ticks]
    {
      queue := queue + [Waiting(packet, tickId)];
      ages := ages + [ticks];
    }

    /** The shard's handler: it may queue its packet again. */
    method Dispatch(packet: nat, outcome: Outcome) returns (ret: int)
      requires Valid()
      modifies `queue, `ages, `dispatched
      ensures Valid() && dispatched == old(dispatched) + [packet]
      ensures queue == old(queue) + (if outcome == Requeued then [Waiting(packet, tickId)] else [])
      ensures ages == old(ages) + (if outcome == Requeued then [ticks] else [])
      ensures ret < 0 <==> outcome == Error
    {
      dispatched := dispatched + [packet];
      if outcome == Requeued {
        DelayUntilLater(packet);
        return 0x7fff_ffff;
      }
      ret := if outcome == Error then -1 else 1;
    }

    /** Takes the head of the queue and dispatches it; it is freed unless it was queued again. */
    method DispatchHead(outcome: Outcome) returns (ret: int)
      requires Valid() && queue != []
      modifies `queue, `ages, `dispatched, `freed
      ensures Valid() && dispatched == old(dispatched) + [old(queue)[0].packet]
      ensures queue == old(queue)[1..] + (if outcome == Requeued then [Waiting(old(queue)[0].packet, tickId)] else [])
      ensures ages == old(ages)[1..] + (if outcome == Requeued then [ticks] else [])
      ensures freed == old(freed) + (if outcome == Requeued then [] else [old(queue)[0].packet])
      ensures ret < 0 <==> outcome == Error
    {
      var head := queue[0];
      queue, ages := queue[1..], ages[1..];
      var length := |queue|;
      ret := Dispatch(head.packet, outcome);
      if |queue| == length {
        freed := freed + [head.packet];
      }
    }

    /** A tick after its first k dispatches. */
    ghost predicate Halfway(was: seq<Waiting>, logs: (seq<nat>, seq<nat>), k: nat, decide: nat -> Outcome)
      reads `queue, `tickId, `dispatched, `freed
    {
      && k <= |was|
      && queue == was[k..] + Stamped(Ending(Packets(was[..k]), decide, true), tickId)
      && dispatched == logs.0 + Packets(was[..k])
      && freed == logs.1 + Ending(Packets(was[..k]), decide, false)
    }

    /** The ages ahead are older than this tick; those behind are of it. */
    ghost predicate Aged(left: nat)
      reads `ages, `ticks
    {
      && left <= |ages|
      && (forall i | 0 <= i < left :: ticks - U32 < ages[i] < ticks)
      && (forall i | left <= i < |ages| :: ages[i] == ticks)
    }

    method Turn(ghost was: seq<Waiting>, ghost logs: (seq<nat>, seq<nat>), k: nat, decide: nat -> Outcome) returns (ret: int)
      requires Valid() && Halfway(was, logs, k, decide) && k < |was| && Aged(|was| - k)
      modifies `queue, `ages, `dispatched, `freed
      ensures Valid() && Halfway(was, logs, k + 1, decide) && Aged(|was| - (k + 1))
      ensures ret < 0 <==> decide(k) == Error
    {
      hide Ending, Valid, Stamped;
      ghost var packet, again := was[k].packet, decide(k) == Requeued;
      ghost var behind, back := Ending(Packets(was[..k]), decide, true), if again then [packet] else [];
      EndingNext(was, k, decide, true);
      EndingNext(was, k, decide, false);
      StampedMore(behind, back, tickId);
      ThroughQueue(was[k..], Stamped(behind, tickId), Stamped(back, tickId));
      StampedFew(packet, tickId);
      assert was[k..][0] == was[k] && was[k..][1..] == was[k + 1..];
      assert logs.0 + Packets(was[..k]) + [packet] == logs.0 + (Packets(was[..k]) + [packet]);
      ghost var gone := if again then [] else [packet];
      assert logs.1 + Ending(Packets(was[..k]), decide, false) + gone == logs.1 + (Ending(Packets(was[..k]), decide, false) + gone);
      ret := DispatchHead(decide(k));
    }

    /** At the head of what a tick has left, a current stamp means that only requeued packets are left. */
    lemma HeadStamp(was: seq<Waiting>, logs: (seq<nat>, seq<nat>), k: nat, decide: nat -> Outcome)
      requires Valid() && Halfway(was, logs, k, decide) && Aged(|was| - k) && queue != []
      ensures queue[0].stamp == tickId <==> k == |was|
    {
    }

    method StartFrame(ghost decide: nat -> Outcome)
      requires Valid() && forall i | 0 <= i < |ages| :: ticks + 1 - ages[i] < U32
      modifies `tickId, `ticks
      ensures Valid() && ticks == old(ticks) + 1
      ensures Halfway(queue, (dispatched, freed), 0, decide) && Aged(|queue|)
    {
      tickId := (tickId + 1) % U32;
      ticks := ticks + 1;
      EndingNone(queue, decide);
    }

    /** One tick; `decide` tells how the handler of its k-th dispatch will end.  The oldest packet
        is not yet a whole turn of the 32-bit tick id old. */
    method Tick(decide: nat -> Outcome)
      requires Valid() && forall i | 0 <= i < |ages| :: ticks + 1 - ages[i] < U32
      modifies this
      ensures Valid() && ticks == old(ticks) + 1
      ensures var was, k := old(queue), Dispatches(|old(queue)|, decide);
              && dispatched == old(dispatched) + Packets(was[..k])
              && freed == old(freed) + Ending(Packets(was[..k]), decide, false)
              && queue == was[k..] + Stamped(Ending(Packets(was[..k]), decide, true), tickId)
    {
      hide Valid, Halfway, Aged, Ending, Dispatches, Stamped;
      ghost var was, logs := queue, (dispatched, freed);
      var k := 0;
      StartFrame(decide);
      var stopped := false;
      while queue != [] && !stopped
        decreases !stopped, |was| - k
        invariant k <= |was| && Valid() && ticks == old(ticks) + 1
        invariant Halfway(was, logs, k, decide) && Aged(|was| - k)
        invariant forall i | 0 <= i < k - 1 :: decide(i) != Error
        invariant if stopped then k == |was| || (k > 0 && decide(k - 1) == Error) else k > 0 ==> decide(k - 1) != Error
      {
        HeadStamp(was, logs, k, decide);
        if queue[0].stamp == tickId {
          stopped := true;
        } else {
          var ret := Turn(was, logs, k, decide);
          k := k + 1;
          stopped := ret < 0;
        }
      }
      Halted(was, logs, k, decide);
      DispatchesAre(|was|, k, decide);
    }

    lemma Halted(was: seq<Waiting>, logs: (seq<nat>, seq<nat>), k: nat, decide: nat -> Outcome)
      requires Halfway(was, logs, k, decide)
      ensures queue == [] ==> k == |was|
      ensures dispatched == logs.0 + Packets(was[..k]) && freed == logs.1 + Ending(Packets(was[..k]), decide, false)
      ensures queue == was[k..] + Stamped(Ending(Packets(was[..k]), decide, true), tickId)
    {
    }
  }

  lemma StampedMore(ps: seq<nat>, qs: seq<nat>, tickId: nat)
    ensures Stamped(ps + qs, tickId) == Stamped(ps, tickId) + Stamped(qs, tickId)
  {
  }

  lemma StampedFew(packet: nat, tickId: nat)
    ensures Stamped([packet], tickId) == [Waiting(packet, tickId)] && Stamped([], tickId) == []
  {
  }

  lemma EndingNone(ws: seq<Waiting>, decide: nat -> Outcome)
    ensures Packets(ws[..0]) == [] && Ending([], decide, true) == Ending([], decide, false) == []
  {
  }

  /** Without an error, a tick dispatches everything that was queued before it. */
  lemma WithoutErrors(n: nat, decide: nat -> Outcome)
    ensures Dispatches(n, decide) == n <==> forall i | 0 <= i < n - 1 :: decide(i) != Error
  {
    if forall i | 0 <= i < n - 1 :: decide(i) != Error {
      DispatchesAre(n, n, decide);
    }
  }

  /** No packet is lost or doubled: each dispatched one is freed or queued again. */
  lemma {:induction false} EndingSplits(ps: seq<nat>, decide: nat -> Outcome)
    ensures multiset(ps) == multiset(Ending(ps, decide, true)) + multiset(Ending(ps, decide, false))
  {
    if ps != [] {
      var most, last := ps[..|ps| - 1], ps[|ps| - 1];
      EndingSplits(most, decide);
      assert ps == most + [last];
      MultisetLast(most, last);
      EndingLast(ps, decide, decide(|most|) == Requeued);
      EndingLast(ps, decide, decide(|most|) != Requeued);
      hide Ending;
    }
  }

  lemma MultisetLast(s: seq<nat>, x: nat)
    ensures multiset(s + [x]) == multiset(s) + multiset{x}
  {
  }

  /** The last packet ends as its handler decides. */
  lemma EndingLast(ps: seq<nat>, decide: nat -> Outcome, requeued: bool)
    requires ps != []
    ensures multiset(Ending(ps, decide, requeued)) == multiset(Ending(ps[..|ps| - 1], decide, requeued))
            + if (decide(|ps| - 1) == Requeued) == requeued then multiset{ps[|ps| - 1]} else multiset{}
  {
    MultisetLast(Ending(ps[..|ps| - 1], decide, requeued), ps[|ps| - 1]);
  }
}

/**
 The account server's table of requests as the process keeps it: request objects
 updated in place, an order-id index, one list per phase sorted by the next tick,
 and the list of pending deletes.  Every method is proved against the request
 machine of Lifecycle: it does to its request exactly what the machine says,
 sends exactly what the machine says, and leaves every other request, and the
 order of every list, alone.
 */
module RequestServer {
  import opened Lifecycle
  import opened LifecycleTheorems
  import opened Lists

  /** Ticks are unsigned 32-bit seconds, ordered by the sign of their 32-bit difference. */
  const CLOCK_LIMIT := 0x8000_0000

  function Compare(a: nat, b: nat): int {
    var d := (a - b) % 0x1_0000_0000;
    if d < 0x8000_0000 then d else d - 0x1_0000_0000
  }

  /** The wrapped comparison of the stored 32 bits orders any two ticks that lie within half the
      range of each other, wherever the clock has got to. */
  lemma CompareOrders(a: nat, b: nat)
    requires -CLOCK_LIMIT <= a - b < CLOCK_LIMIT
    ensures Compare(a % 0x1_0000_0000, b % 0x1_0000_0000) == Compare(a, b) == a - b
  {
  }

  datatype Sent = Sent(order: nat, effect: Effect)

  function Tag(order: nat, fx: seq<Effect>): seq<Sent> {
    seq(|fx|, i requires 0 <= i < |fx| => Sent(order, fx[i]))
  }

  /** What Start, ValidateProduct and ValidateTransaction say: some refusals notify, some are silent. */
  datatype Verdict = Accepted | Refused | Silent

  class AccountRequest {
    const kind: Kind
    const order: nat
    const byVip: bool
    const shard: nat
    const dstShard: nat
    var phase: Phase
    var nextTick: nat
    var completed: bool
    var xfer: Transfer
    var place: Place       // the list its tick link is on

    constructor (kind: Kind, order: nat, byVip: bool, shard: nat, dstShard: nat, phase: Phase)
      ensures View() == Request(kind, order, byVip, phase, 0, Freed, true, false, Transfer(false, false, CopySrc, "", 0))
      ensures this.shard == shard && this.dstShard == dstShard
    {
      this.kind, this.order, this.byVip, this.shard, this.dstShard := kind, order, byVip, shard, dstShard;
      this.phase, nextTick, completed, xfer := phase, 0, false, Transfer(false, false, CopySrc, "", 0);
      place := Freed;
    }

    ghost function View(): Request
      reads this
    {
      Request(kind, order, byVip, phase, nextTick, place, !completed, completed, xfer)
    }
  }

  /** An added request is on a list, and on a due list until it is completed. */
  ghost predicate Stands(r: AccountRequest)
    reads r`place, r`completed
  {
    r.place != Freed && (!r.completed ==> r.place.Active?)
  }

  function EnvAt(r: AccountRequest, now: nat, up: set<nat>): Env {
    Env(now, r.shard in up, r.dstShard in up)
  }

  datatype Board = Board(views: map<AccountRequest, Request>, sent: seq<Sent>)

  /** A tick's visit to one request, and to one after the other. */
  ghost function VisitOne(b: Board, r: AccountRequest, now: nat, up: set<nat>): Board {
    if r !in b.views then b
    else
      var out := RunDue(b.views[r], EnvAt(r, now, up));
      Board(b.views[r := out.r], b.sent + Tag(r.order, out.fx))
  }

  ghost function RunAll(b: Board, rs: seq<AccountRequest>, now: nat, up: set<nat>): Board {
    if rs == [] then b else VisitOne(RunAll(b, rs[..|rs| - 1], now, up), rs[|rs| - 1], now, up)
  }

  lemma RunNone(b: Board, now: nat, up: set<nat>)
    ensures RunAll(b, [], now, up) == b
  {
  }

  lemma RunNext(b: Board, rs: seq<AccountRequest>, n: nat, now: nat, up: set<nat>)
    requires n < |rs|
    ensures RunAll(b, rs[..n + 1], now, up) == VisitOne(RunAll(b, rs[..n], now, up), rs[n], now, up)
  {
    assert rs[..n + 1][..n] == rs[..n];
  }

  /** A due fulfilment fails exactly if the shard of the order is not there, or, for a transfer, the
      one it goes to. */
  lemma LostLinkFailsIff(r: AccountRequest, now: nat, up: set<nat>)
    requires !r.completed && r.phase == Fulfill && r.place.Active?
    ensures Notify(false) in Step1(r.View(), Due, EnvAt(r, now, up)).fx <==>
              r.shard !in up || (r.kind == ShardTransfer && r.dstShard !in up)
    ensures Step1(r.View(), Due, EnvAt(r, now, up)).r.nextTick == now + 300
  {
  }

  ghost predicate Sorted(list: seq<AccountRequest>)
    reads list`nextTick
  {
    forall i, j | 0 <= i < j < |list| :: list[i].nextTick <= list[j].nextTick
  }

  class RequestServer {
    var lists: map<Place, seq<AccountRequest>>   // a due list per phase, and the pending deletes
    var index: map<nat, AccountRequest>
    var sent: seq<Sent>
    var now: nat
    var up: set<nat>
    ghost var all: set<AccountRequest>

    function EnvOf(r: AccountRequest): Env
      reads `now, `up
    {
      EnvAt(r, now, up)
    }

    /** What can be seen of the server: every request, and everything sent. */
    ghost function Snapshot(): Board
      reads `all, `sent, all
    {
      Board(map r | r in all :: r.View(), sent)
    }

    /** Every request is on the one list its link says. */
    ghost predicate Placed()
      reads `all, `lists, all`place
    {
      && (forall p :: p in lists <==> p != Freed)
      && (forall p, r | p in lists && r in lists[p] :: r in all && r.place == p)
      && (forall r | r in all && r.place != Freed :: r in lists[r.place])
      && (forall p | p in lists :: NoDup(lists[p]))
    }

    ghost predicate Ticking()
      reads `all, `now, all`nextTick
    {
      && now + FULFILL_TIMEOUT < CLOCK_LIMIT
      && forall r | r in all :: r.nextTick < CLOCK_LIMIT
    }

    /** The due lists are sorted by their next ticks. */
    ghost predicate InOrder()
      reads `all, `lists, all`nextTick
    {
      forall p | p in lists && p.Active? :: (forall r | r in lists[p] :: r in all) && Sorted(lists[p])
    }

    ghost predicate Linked()
      reads `all, `lists, `now, all`place, all`nextTick
    {
      Placed() && Ticking() && InOrder()
    }

    /** The order-id index holds exactly the added requests that are not completed. */
    ghost predicate Indexed()
      reads `all, `index, all`completed
    {
      && (forall r | r in all :: r.order != 0 && (!r.completed ==> r.order in index && index[r.order] == r))
      && (forall o | o in index :: index[o] in all && !index[o].completed && index[o].order == o)
    }

    ghost predicate Valid()
      reads `all, `lists, `index, `now, all`place, all`nextTick, all`completed
    {
      && Linked() && Indexed()
      && forall r | r in all :: Stands(r)
    }

    /** The index, read back: exactly the added uncompleted requests, one for each order id. */
    lemma IndexExact(r: AccountRequest, q: AccountRequest)
      requires Valid() && r in all && q in all
      ensures !r.completed <==> r.order in index && index[r.order] == r
      ensures !r.completed && !q.completed && r.order == q.order ==> r == q
      ensures !r.completed ==> r in lists[r.place]
    {
      hide NoDup, Sorted;
    }

    /** The lists hold everything but r in the order they had. */
    twostate predicate KeepsOthers(r: AccountRequest)
      reads `lists
    {
      && lists.Keys == old(lists.Keys)
      && forall p | p in lists :: Without(lists[p], r) == Without(old(lists)[p], r)
    }

    /** The operation did to r, and sent on its behalf, exactly what the machine says. */
    twostate predicate Did(r: AccountRequest, out: Out)
      reads this, all, r
    {
      && Valid()
      && all == old(all) && now == old(now) && up == old(up) && r in all
      && r.View() == out.r
      && sent == old(sent) + Tag(r.order, out.fx)
      && KeepsOthers(r)
    }

    /** The list that r has just joined or left. */
    twostate function Touched(r: AccountRequest): Place
      reads r`place
    {
      if r.place == Freed then old(r.place) else r.place
    }

    /** Replacing the list that r joins or leaves keeps everything linked. */
    twostate lemma Relinked(r: AccountRequest)
      requires old(Linked()) && all == old(all) && now == old(now) && r in all
      requires Touched(r) in lists && lists == old(lists)[Touched(r) := lists[Touched(r)]]
      requires (old(r.place) == Freed) != (r.place == Freed)
      requires forall q | q in all :: q.nextTick == old(q.nextTick) && (q != r ==> q.place == old(q.place))
      requires var p, list := Touched(r), lists[Touched(r)];
               && NoDup(list) && (p.Active? ==> Sorted(list))
               && (forall q | q in list :: q in all && q.place == p)
               && (forall q | q in all && q.place == p :: q in list)
      ensures Linked()
    {
      hide NoDup, Sorted;
    }

    twostate lemma KeptOthers(r: AccountRequest)
      requires Touched(r) in lists && Touched(r) in old(lists) && lists == old(lists)[Touched(r) := lists[Touched(r)]]
      requires Without(lists[Touched(r)], r) == Without(old(lists)[Touched(r)], r)
      ensures KeepsOthers(r)
    {
      hide Without;
    }

    /** What Linked says of one list. */
    lemma OneList(p: Place)
      requires Linked() && p != Freed
      ensures p in lists && NoDup(lists[p]) && (p.Active? ==> Sorted(lists[p]))
      ensures forall q :: q in lists[p] <==> q in all && q.place == p
    {
      hide NoDup, Sorted;
    }

    method Unlink(r: AccountRequest)
      requires Linked() && r in all && r.place != Freed
      modifies `lists, r`place
      ensures Linked() && r.place == Freed && KeepsOthers(r)
      ensures old(r.place) in old(lists) && lists == old(lists)[old(r.place) := Without(old(lists[r.place]), r)]
    {
      hide Linked, NoDup, Sorted, Without, KeepsOthers;
      var p := r.place;
      OneList(p);
      var list := Without(lists[p], r);
      WithoutFacts(lists[p], r);
      WithoutAgain(lists[p], r);
      lists := lists[p := list];
      r.place := Freed;
      assert Touched(r) == p;
      Relinked(r);
      KeptOthers(r);
    }

    method LinkAt(r: AccountRequest, p: Place, k: nat)
      requires Linked() && r in all && r.place == Freed && p in lists && p != Freed && k <= |lists[p]|
      requires p.Active? ==> Sorted(lists[p][..k] + [r] + lists[p][k..])
      modifies `lists, r`place
      ensures Linked() && r.place == p && KeepsOthers(r)
    {
      hide Linked, NoDup, Sorted, Without, KeepsOthers;
      OneList(p);
      var list := lists[p][..k] + [r] + lists[p][k..];
      InsertNoDup(lists[p], k, r);
      WithoutInserted(lists[p], k, r);
      WithoutAbsent(lists[p], r);
      lists := lists[p := list];
      r.place := p;
      assert Touched(r) == p;
      Relinked(r);
      KeptOthers(r);
    }

    /** Walks back from the tail past every later tick and links r there. */
    method AddSortedNearTail(r: AccountRequest)
      requires Linked() && r in all && r.place == Freed
      modifies `lists, r`place
      ensures Linked() && r.place == Active(r.phase) && KeepsOthers(r)
    {
      OneList(Active(r.phase));
      var list := lists[Active(r.phase)];
      assert forall q | q in list :: q in all;
      var k := PlaceNearTail(list, r.nextTick);
      hide *;
      InsertSorted(list, k, r);
      LinkAt(r, Active(r.phase), k);
    }

    method SetTick(r: AccountRequest, newTick: nat)
      requires Linked() && r in all && r.place == Freed && newTick < CLOCK_LIMIT
      modifies r`nextTick
      ensures Linked() && r.nextTick == newTick
    {
      hide NoDup;
      r.nextTick := newTick;
    }

    method ReSort(r: AccountRequest, newTick: nat)
      requires Linked() && r in all && r.place != Freed && newTick < CLOCK_LIMIT
      modifies `lists, r`place, r`nextTick
      ensures Linked() && r.place == Active(r.phase) && r.nextTick == newTick && KeepsOthers(r)
    {
      hide Linked, Without;
      Unlink(r);
      SetTick(r, newTick);
      AddSortedNearTail(r);
    }

    // -------------------------------------------------------------------
    //  Finishing
    // -------------------------------------------------------------------

    method Send(r: AccountRequest, f: Effect)
      modifies `sent
      ensures sent == old(sent) + [Sent(r.order, f)]
    {
      sent := sent + [Sent(r.order, f)];
    }

    method Announce(r: AccountRequest, success: bool)
      modifies `sent
      ensures sent == old(sent) + Tag(r.order, Completion(r.View(), success))
    {
      if !success && r.order != 0 {
        Send(r, Revert);
      }
      if success && r.kind == Multi {
        Send(r, MultiAnnounce);
      }
      Send(r, Notify(success));
    }

    /** Takes the order out of the index and its request out of its list. */
    method Remove(r: AccountRequest) returns (found: bool)
      requires Valid() && r in all && !r.completed
      modifies `index, `lists, r`place
      ensures found && index == old(index) - {r.order}
      ensures Linked() && r.place == Freed && KeepsOthers(r)
    {
      hide Linked, KeepsOthers;
      found := r.order in index;
      if found {
        var request := index[r.order];
        assert request == r;
        hide Indexed;
        Unlink(request);
        index := index - {r.order};
      }
    }

    lemma FromValid()
      requires Valid()
      ensures Linked() && Indexed() && now + FULFILL_TIMEOUT < CLOCK_LIMIT
      ensures forall q | q in all :: Stands(q)
    {
      hide Indexed, Placed, InOrder;
    }

    lemma AllValid()
      requires Linked() && Indexed() && forall q | q in all :: Stands(q)
      ensures Valid()
    {
    }

    twostate lemma IndexClosed(r: AccountRequest)
      requires old(Valid()) && all == old(all) && r in all
      requires old(!r.completed) && r.completed && r.place != Freed && index == old(index) - {r.order}
      requires forall q | q in all && q != r :: q.completed == old(q.completed) && q.place == old(q.place)
      ensures Indexed()
      ensures forall q | q in all :: Stands(q)
    {
      hide Linked;
    }

    /** Closing the order: out of the index, onto the pending deletes. */
    method Close(r: AccountRequest)
      requires Valid() && r in all && !r.completed
      modifies `index, `lists, r`place, r`completed
      ensures Valid() && r.View() == old(r.View()).(completed := true, indexed := false, place := Deleting)
      ensures KeepsOthers(r)
    {
      hide Linked, Indexed, Valid, Without;
      var found := Remove(r);
      if found {
        LinkToDeletes(r);
      }
      assert KeepsOthers(r);
      hide KeepsOthers;
      r.completed := true;
      IndexClosed(r);
      AllValid();
    }

    method LinkToDeletes(r: AccountRequest)
      requires Linked() && r in all && r.place == Freed
      modifies `lists, r`place
      ensures Linked() && r.place == Deleting && KeepsOthers(r)
    {
      OneList(Deleting);
      hide Linked, KeepsOthers;
      LinkAt(r, Deleting, |lists[Deleting]|);
    }

    method Complete(r: AccountRequest, success: bool)
      requires Valid() && r in all
      modifies this, r
      ensures Did(r, Lifecycle.Complete(old(r.View()), success))
    {
      hide Linked, Indexed, Without, Completion;
      if r.completed {
        return;
      }
      Announce(r, success);
      Close(r);
    }

    // -------------------------------------------------------------------
    //  The state methods
    // -------------------------------------------------------------------

    method UpdateNextTick(r: AccountRequest)
      requires Valid() && r in all && r.place != Freed
      modifies `lists, r`place, r`nextTick
      ensures Did(r, Out(Lifecycle.UpdateNextTick(old(r.View()), now), []))
    {
      hide Valid, Linked, Indexed, KeepsOthers;
      FromValid();
      ReSort(r, now + Timeout(r.phase));
      AllValid();
    }

    method RestartTimer(r: AccountRequest, phase: Phase)
      requires Valid() && r in all && r.place != Freed
      modifies `lists, r`place, r`nextTick
      ensures Valid() && KeepsOthers(r)
      ensures r.View() == if r.phase == phase then Lifecycle.UpdateNextTick(old(r.View()), now) else old(r.View())
    {
      hide Valid, Linked, Without;
      if r.phase == phase {
        UpdateNextTick(r);
      }
    }

    method StateFulfill(r: AccountRequest)
      requires Valid() && r in all
      modifies this, r
      ensures Did(r, Lifecycle.StateFulfill(old(r.View()), old(EnvOf(r))))
    {
      hide Linked, Indexed, Without, Lifecycle.Complete;
      if r.shard !in up {
        Complete(r, false);
      } else if r.kind != ShardTransfer {
        Send(r, AskFulfill);
      } else if r.dstShard !in up {
        Complete(r, false);
      } else {
        SendStep(r);
      }
    }

    /** The packet of the transfer's current step. */
    method SendStep(r: AccountRequest)
      requires Valid() && r in all && r.kind == ShardTransfer && r.shard in up && r.dstShard in up
      modifies `sent, r`xfer
      ensures Did(r, Lifecycle.StateFulfill(old(r.View()), old(EnvOf(r))))
    {
      hide Linked, Indexed, Without, Lifecycle.Complete;
      match r.xfer.step
      case CopySrc =>
        r.xfer := r.xfer.(container := "");
        Send(r, ToSrcCopy);
      case CopyDst =>
        if r.xfer.container != "" { Send(r, ToDstCopy(r.xfer.container)); }
      case CommitSrc =>
        if r.xfer.newDbid != 0 { Send(r, ToSrcCommit(r.xfer.newDbid)); }
      case CommitDst =>
        Send(r, ToDstCommit(r.xfer.newDbid));
      case CommitRecovery =>
        Send(r, ToDstRecover);
    }

    method StateValidate(r: AccountRequest, timeout: bool)
      requires Valid() && r in all && r.place != Freed && r.phase == Validate
      modifies this, r
      ensures Did(r, Lifecycle.StateValidate(old(r.View()), timeout, old(EnvOf(r))))
      decreases 1, 0
    {
      hide Valid, Without, Lifecycle.Complete, Lifecycle.StateFulfill;
      ghost var view, env := r.View(), EnvOf(r);
      if timeout {
        Complete(r, false);
      } else {
        match r.kind
        case Rename | Respec =>
          if r.shard !in up { Complete(r, false); } else { Send(r, AskValid); }
        case ShardTransfer =>
          if r.shard !in up || r.dstShard !in up {
            Complete(r, false);
          } else {
            Send(r, ToSrcValidate);
            Send(r, ToDstValidate);
          }
        case _ =>
          StateFulfillFair(view.(phase := Fulfill), env);
          ChangeState(r, Fulfill);
      }
    }

    method RunState(r: AccountRequest, timeout: bool)
      requires Valid() && r in all && r.place != Freed
      modifies this, r
      ensures Did(r, Lifecycle.RunState(old(r.View()), timeout, old(EnvOf(r))))
      decreases 2 - Rank(r.phase), 1
    {
      hide Valid, Without, Lifecycle.Complete, Lifecycle.StateValidate, Lifecycle.StateFulfill;
      match r.phase
      case Charge => if timeout { Complete(r, false); }
      case Validate => StateValidate(r, timeout);
      case Fulfill => StateFulfill(r);
    }

    method ChangeState(r: AccountRequest, phase: Phase)
      requires Valid() && r in all && r.place != Freed
      modifies this, r
      ensures Did(r, Lifecycle.ChangeState(old(r.View()), phase, old(EnvOf(r))))
      decreases 2 - Rank(phase), 2
    {
      hide Valid, Linked, Indexed, Without, Lifecycle.RunState;
      ghost var view, env := r.View(), EnvOf(r);
      ghost var out := Lifecycle.RunState(view.(phase := phase), false, env);
      RunLinked(view.(phase := phase), false, env);
      r.phase := phase;
      RunState(r, false);
      assert r.View() == out.r;
      assert sent == old(sent) + Tag(r.order, out.fx);
      hide Tag;
      RestartTimer(r, phase);
    }

    // -------------------------------------------------------------------
    //  Events
    // -------------------------------------------------------------------

    /** Every linked request is on the list of its phase, or awaits deletion. */
    ghost predicate Settled()
      reads `all, all`place, all`phase
    {
      forall r | r in all && r.place.Active? :: r.place.list == r.phase
    }

    /** An order's event did what the machine says to the indexed request, or found none. */
    twostate predicate Handled(order: nat, e: Event)
      requires old(Valid())
      reads this, all
    {
      if order in old(index) then
        && all == old(all)
        && Did(old(index[order]), Step1(old(index[order].View()), e, old(EnvOf(index[order]))))
      else
        && Valid() && unchanged(`lists, `index, `all, `now, `up)
        && sent == old(sent) + Tag(order, if e.Finished? then Forgotten(order, e.ok) else [])
    }

    /** What the index promises of the request it finds. */
    lemma Found(order: nat)
      requires Valid() && order in index
      ensures var r := index[order];
              r in all && r.order == order && !r.completed && r.place.Active? && r.place != Freed
    {
      hide Linked;
    }

    lemma InIndex(r: AccountRequest)
      requires Valid() && r in all && !r.completed
      ensures r.order in index && index[r.order] == r
    {
      hide Linked;
    }

    method OnTransactionCompleted(order: nat, success: bool)
      requires Valid()
      modifies this, if order in index then {index[order]} else {}
      ensures Handled(order, Event.Charged(success))
      ensures old(Settled()) ==> Settled()
    {
      hide Valid, Without, Lifecycle.Complete, Lifecycle.ChangeState;
      if order in index {
        Found(order);
        SettledAfter(index[order].View(), Event.Charged(success), EnvOf(index[order]));
        var r := index[order];
        if !success {
          Complete(r, false);
        } else if r.phase == Charge {
          ChangeState(r, Validate);
        }
      }
    }

    method HandleFinish(order: nat, success: bool)
      requires Valid()
      modifies this, if order in index then {index[order]} else {}
      ensures Handled(order, Finished(success))
      ensures old(Settled()) ==> Settled()
    {
      hide Valid, Without, Lifecycle.Complete;
      if order in index {
        Found(order);
        SettledAfter(index[order].View(), Finished(success), EnvOf(index[order]));
        Complete(index[order], success);
      } else {
        if !success && order != 0 {
          sent := sent + [Sent(order, ForgottenRevert)];
        }
        sent := sent + [Sent(order, ForgottenNotify(success))];
      }
    }

    method HandleSlot(order: nat, success: bool)
      requires Valid()
      modifies this, if order in index then {index[order]} else {}
      ensures Handled(order, SlotReply(success))
      ensures old(Settled()) ==> Settled()
    {
      hide Valid, Without, Lifecycle.Complete;
      if order in index {
        Found(order);
        SettledAfter(index[order].View(), SlotReply(success), EnvOf(index[order]));
        var r := index[order];
        if r.kind == Slot {
          Complete(r, success);
          if success {
            Send(r, Save);
          }
        }
      }
    }

    /** The handler of rename and respec replies. */
    method HandleTwoPhase(kind: Kind, order: nat, validating: bool, success: bool)
      requires Valid() && (kind == Rename || kind == Respec)
      modifies this, if order in index then {index[order]} else {}
      ensures Handled(order, if kind == Rename then RenameReply(validating, success) else RespecReply(validating, success))
      ensures old(Settled()) ==> Settled()
    {
      hide Valid, Without, Lifecycle.Complete, Lifecycle.ChangeState;
      if order in index {
        Found(order);
        SettledAfter(index[order].View(), if kind == Rename then RenameReply(validating, success) else RespecReply(validating, success), EnvOf(index[order]));
        var r := index[order];
        if r.kind == kind && r.phase == (if validating then Validate else Fulfill) {
          if validating && success {
            ChangeState(r, Fulfill);
          } else {
            Complete(r, success);
          }
        }
      }
    }

    method HandleTransfer(order: nat, m: Reply)
      requires Valid()
      modifies this, if order in index then {index[order]} else {}
      ensures Handled(order, XferReply(m))
      ensures old(Settled()) ==> Settled()
    {
      hide Valid, Without, Lifecycle.Complete, Lifecycle.ChangeState, Fits, OnValidated, OnFulfilled;
      if order in index {
        Found(order);
        SettledAfter(index[order].View(), XferReply(m), EnvOf(index[order]));
        var r := index[order];
        if r.kind == ShardTransfer {
          if m.ValidSrc? || m.ValidDst? {
            Validated(r, m);
          } else {
            Fulfilled(r, m);
          }
        }
      }
    }

    method Validated(r: AccountRequest, m: Reply)
      requires Valid() && r in all && r.place != Freed && (m.ValidSrc? || m.ValidDst?)
      modifies this, r
      ensures Did(r, OnValidated(old(r.View()), m, old(EnvOf(r))))
    {
      hide Valid, Without, Lifecycle.Complete, Lifecycle.ChangeState, Fits;
      if r.phase == Validate {
        if (if m.ValidSrc? then m.ok else Fits(r.byVip, m)) {
          if m.ValidSrc? {
            r.xfer := r.xfer.(srcConfirmed := true);
          } else {
            r.xfer := r.xfer.(dstConfirmed := true);
          }
          if r.xfer.srcConfirmed && r.xfer.dstConfirmed {
            ChangeState(r, Fulfill);
          }
        } else {
          Complete(r, false);
        }
      }
    }

    method Fulfilled(r: AccountRequest, m: Reply)
      requires Valid() && r in all && r.place != Freed && !(m.ValidSrc? || m.ValidDst?)
      modifies this, r
      ensures Did(r, OnFulfilled(old(r.View()), m, old(EnvOf(r))))
    {
      hide Valid, Without, Lifecycle.Complete, Lifecycle.ChangeState;
      if r.phase == Fulfill && Answers(r.xfer.step, m) {
        match m
        case Copied(ok, text) =>
          if !ok {
            r.xfer := r.xfer.(container := "");
            Complete(r, false);
          } else {
            r.xfer := r.xfer.(container := text, step := if text == "" then CommitRecovery else CopyDst);
            ChangeState(r, Fulfill);
          }
        case Created(dbid) =>
          r.xfer := r.xfer.(newDbid := dbid, step := CommitSrc);
          ChangeState(r, Fulfill);
        case SrcCommitted =>
          r.xfer := r.xfer.(step := CommitDst);
          ChangeState(r, Fulfill);
        case DstCommitted =>
          Complete(r, true);
        case Recovered(found) =>
          Complete(r, found);
      }
    }

    // -------------------------------------------------------------------
    //  Starting
    // -------------------------------------------------------------------

    constructor (now: nat)
      requires now + FULFILL_TIMEOUT < CLOCK_LIMIT
      ensures Valid() && Settled() && all == {} && sent == [] && this.now == now && up == {}
    {
      lists := map[Active(Charge) := [], Active(Validate) := [], Active(Fulfill) := [], Deleting := []];
      index, sent, this.now, up, all := map[], [], now, {}, {};
      new;
      forall p ensures p in lists <==> p != Freed {
        if p.Active? { match p.list case Charge => case Validate => case Fulfill => }
      }
    }

    /** The clock and the shard links move on between events. */
    method Observe(now: nat, up: set<nat>)
      requires Valid() && this.now <= now && now + FULFILL_TIMEOUT < CLOCK_LIMIT
      modifies `now, `up
      ensures Valid() && this.now == now && this.up == up
    {
      hide Placed, Indexed, Sorted;
      this.now, this.up := now, up;
    }

    /** Refuses a null or a known order id, else indexes the request and lists it. */
    method AddSorted(r: AccountRequest) returns (added: bool)
      requires Valid() && r !in all && r.place == Freed && !r.completed && r.nextTick < CLOCK_LIMIT
      modifies `index, `lists, `all, r`place
      ensures Valid() && added == (r.order != 0 && r.order !in old(index))
      ensures added ==> r in all && r.View() == old(r.View()).(place := Active(r.phase))
      ensures all == if added then old(all) + {r} else old(all)
      ensures index == if added then old(index)[r.order := r] else old(index)
      ensures KeepsOthers(r) && (!added ==> unchanged(this))
    {
      added := r.order != 0 && r.order !in index;
      if added {
        FromValid();
        Enlist(r);
        hide Valid, Linked, Indexed;
        AddSortedNearTail(r);
        AllValid();
      }
    }

    /** A new order, once its request type has looked at it; `order` is the id its add task got.
        Returns that id, or 0 when the order did not start. */
    method New(kind: Kind, order: nat, byVip: bool, shard: nat, dstShard: nat, verdict: Verdict) returns (id: nat)
      requires Valid()
      modifies this
      ensures Valid() && now == old(now) && up == old(up)
      ensures id == if shard in up && verdict == Accepted && order !in old(index) then order else 0
      ensures id == 0 ==> all == old(all) && index == old(index) && lists == old(lists)
      ensures id == 0 ==> sent == old(sent) + Tag(if shard in up && verdict == Accepted then order else 0,
                                                  if shard in up && verdict == Accepted then [Submit]
                                                  else if shard in up && verdict == Silent then []
                                                  else [Notify(false)])
      ensures id != 0 ==>
                var env := Env(now, shard in up, dstShard in up);
                && id in index && fresh(index[id]) && all == old(all) + {index[id]}
                && index[id].View() == Begin(kind, order, byVip, env).r
                && sent == old(sent) + Tag(order, Begin(kind, order, byVip, env).fx)
      ensures old(Settled()) ==> Settled()
    {
      hide Valid, Without, NoDup, Sorted, Linked, Indexed;
      id := 0;
      if shard !in up {
        sent := sent + [Sent(0, Notify(false))];
      } else if verdict != Accepted {
        if verdict == Refused { sent := sent + [Sent(0, Notify(false))]; }
      } else {
        var r := new AccountRequest(kind, order, byVip, shard, dstShard, Charge);
        sent := sent + [Sent(order, Submit)];
        var added := AddSorted(r);
        if added {
          ChangeState(r, Charge);
          InIndex(r);
          id := order;
        }
      }
    }

    /** An order that SQL lists as unsaved; one that is still live is left alone. */
    method Recover(kind: Kind, order: nat, byVip: bool, shard: nat, dstShard: nat) returns (started: bool)
      requires Valid()
      modifies this
      ensures Valid() && now == old(now) && up == old(up)
      ensures started == (order != 0 && order !in old(index))
      ensures !started ==> unchanged(this)
      ensures started ==> exists r ::
                var out := Resume(kind, order, byVip, Env(now, shard in up, dstShard in up));
                && fresh(r) && all == old(all) + {r} && r.View() == out.r
                && sent == old(sent) + Tag(order, out.fx)
      ensures old(Settled()) ==> Settled()
    {
      hide Valid, Without, Lifecycle.ChangeState;
      started := false;
      if order != 0 {
        var r := new AccountRequest(kind, order, byVip, shard, dstShard, Validate);
        started := AddSorted(r);
        if started {
          RelinkedPlacing(r.View(), Validate, EnvOf(r));
          ChangeState(r, Validate);
        }
      }
    }

    method Enlist(r: AccountRequest)
      requires Linked() && Indexed() && r !in all && r.place == Freed && !r.completed && r.nextTick < CLOCK_LIMIT
      requires r.order != 0 && r.order !in index
      modifies `index, `all
      ensures Linked() && Indexed()
      ensures all == old(all) + {r} && index == old(index)[r.order := r]
    {
      hide NoDup, Sorted;
      all := all + {r};
      index := index[r.order := r];
    }

    // -------------------------------------------------------------------
    //  Tick
    // -------------------------------------------------------------------

    /** One visit of the walk: run the state as timed out and restart its timer. */
    method Visit(r: AccountRequest)
      requires Valid() && Settled() && r in all && r.place.Active?
      modifies this, r
      ensures Did(r, RunDue(old(r.View()), old(EnvOf(r))))
      ensures Settled() && r.place == old(r.place) && r.nextTick > now
    {
      hide Valid, Without, Lifecycle.RunState;
      ghost var view, env := r.View(), EnvOf(r);
      ghost var out := Lifecycle.RunState(view, true, env);
      RunLinked(view, true, env);
      DueKeepsPhase(view, env);
      var phase := r.phase;
      RunState(r, true);
      assert r.View() == out.r;
      assert sent == old(sent) + Tag(r.order, out.fx);
      hide Tag;
      RestartTimer(r, phase);
    }

    /** A visit of the first of a due list moves it behind everything that is due. */
    method VisitHead(r: AccountRequest, ghost due: seq<AccountRequest>, ghost tail: seq<AccountRequest>)
      returns (ghost tail': seq<AccountRequest>)
      requires Valid() && Settled() && r in all && r.place.Active?
      requires lists[r.place] == [r] + due + tail
      requires (forall q | q in due :: q.nextTick <= now) && (forall q | q in tail :: q.nextTick > now)
      modifies this, r
      ensures Valid() && Settled() && all == old(all) && now == old(now) && up == old(up)
      ensures r.place == old(r.place) && forall q | q in due :: q.nextTick <= now
      ensures Snapshot() == VisitOne(old(Snapshot()), r, now, up)
      ensures lists.Keys == old(lists.Keys) && lists[r.place] == due + tail' && forall q | q in tail' :: q.nextTick > now
      ensures forall p | p in lists && p != r.place :: lists[p] == old(lists)[p]
    {
      hide Valid, Without, NoDup, Sorted;
      ListsOf(r);
      WithoutHead(r, due, tail);
      Visit(r);
      ListsOf(r);
      tail' := LandsInTail(lists[r.place], r, due, tail, now);
    }

    /** A request is on the list its link says, once, and on no other. */
    lemma ListsOf(r: AccountRequest)
      requires Valid() && r in all && r.place != Freed
      ensures r.place in lists && NoDup(lists[r.place]) && r in lists[r.place]
      ensures r.place.Active? ==> Sorted(lists[r.place])
      ensures forall p | p in lists && p != r.place :: r !in lists[p] && Without(lists[p], r) == lists[p]
    {
      forall p | p in lists && p != r.place
        ensures r !in lists[p] && Without(lists[p], r) == lists[p]
      {
        WithoutAbsent(lists[p], r);
      }
      OneList(r.place);
    }

    /** One turn of the walk: visit cur, go on to the link saved before the visit, save the next. */
    method Turn(p: Phase, cur: AccountRequest, next: AccountRequest?, ghost due: seq<AccountRequest>, ghost tail: seq<AccountRequest>)
      returns (cur': AccountRequest?, next': AccountRequest?, ghost tail': seq<AccountRequest>)
      requires Valid() && Settled() && Active(p) in lists && lists[Active(p)] == [cur] + due + tail
      requires (forall q | q in due :: q.nextTick <= now) && (forall q | q in tail :: q.nextTick > now)
      requires next == Next(lists[Active(p)], cur)
      modifies this, cur
      ensures Valid() && Settled() && all == old(all) && now == old(now) && up == old(up)
      ensures cur in all && Snapshot() == VisitOne(old(Snapshot()), cur, now, up)
      ensures lists.Keys == old(lists.Keys) && lists[Active(p)] == due + tail'
      ensures (forall q | q in due :: q.nextTick <= now) && (forall q | q in tail' :: q.nextTick > now)
      ensures forall q | q in lists && q != Active(p) :: lists[q] == old(lists)[q]
      ensures Reached(p, cur', next', due)
    {
      hide Valid, Linked, NoDup, Sorted, Settled, Without, Snapshot, VisitOne;
      FromValid();
      OneList(Active(p));
      assert [cur] + (due + tail) == [cur] + due + tail;
      NoDupHead(cur, due + tail);
      tail' := VisitHead(cur, due, tail);
      cur' := next;
      next' := if cur' == null then null else Next(lists[Active(p)], cur');
    }

    method First(p: Phase, ghost due: seq<AccountRequest>, ghost tail: seq<AccountRequest>)
      returns (cur: AccountRequest?, next: AccountRequest?)
      requires Active(p) in lists && lists[Active(p)] == due + tail && forall q | q in tail :: q.nextTick > now
      ensures Reached(p, cur, next, due)
    {
      cur := Next(lists[Active(p)], null);
      next := if cur == null then null else Next(lists[Active(p)], cur);
    }

    /** Where the walk stands when the requests of `due` are still to be visited. */
    ghost predicate Reached(p: Phase, cur: AccountRequest?, next: AccountRequest?, due: seq<AccountRequest>)
      reads this, cur
    {
      && Active(p) in lists
      && if due == [] then cur == null || cur.nextTick > now
         else cur == due[0] && next == Next(lists[Active(p)], cur)
    }

    /** The walk of one due list.  It saves the next link before each visit, because a visit
        takes the request out of the list and links it in again further down. */
    method Walk(p: Phase) returns (ghost n: nat)
      requires Valid() && Settled() && Active(p) in lists
      modifies this, all
      ensures Valid() && Settled() && all == old(all) && now == old(now) && up == old(up)
      ensures lists.Keys == old(lists.Keys) && n <= |old(lists)[Active(p)]|
      ensures forall j | 0 <= j < |old(lists[Active(p)])| :: old(lists[Active(p)][j].nextTick) <= now <==> j < n
      ensures Snapshot() == RunAll(old(Snapshot()), old(lists)[Active(p)][..n], now, up)
      ensures forall r | r in lists[Active(p)] :: r.nextTick > now
      ensures forall q | q in lists && q != Active(p) :: lists[q] == old(lists)[q]
    {
      hide Valid, Settled, Snapshot, RunAll, VisitOne, Next, Linked, Indexed, Placed, Ticking, InOrder;
      ghost var list := lists[Active(p)];
      ghost var board := Snapshot();
      ghost var m, tail := Front(p);
      n := 0;
      var cur, next := First(p, list[0..m], tail);
      RunNone(board, now, up);
      while cur != null && cur.nextTick <= now
        decreases m - n
        invariant Valid() && Settled() && all == old(all) && now == old(now) && up == old(up)
        invariant lists.Keys == old(lists.Keys) && n <= m <= |list|
        invariant lists[Active(p)] == list[n..m] + tail
        invariant (forall q | q in list[n..m] :: q.nextTick <= now) && (forall q | q in tail :: q.nextTick > now)
        invariant Snapshot() == RunAll(board, list[..n], now, up)
        invariant forall q | q in lists && q != Active(p) :: lists[q] == old(lists)[q]
        invariant Reached(p, cur, next, list[n..m])
        invariant forall r | r in list :: r in all
      {
        RunNext(board, list, n, now, up);
        assert list[n..m] == [cur] + list[n + 1..m];
        cur, next, tail := Turn(p, cur, next, list[n + 1..m], tail);
        n := n + 1;
      }
    }

    /** The due part of a due list and the rest. */
    lemma Front(p: Phase) returns (m: nat, tail: seq<AccountRequest>)
      requires Valid() && Active(p) in lists
      ensures var list := lists[Active(p)];
        && m <= |list| && list == list[0..m] + tail
        && (forall j | 0 <= j < |list| :: list[j].nextTick <= now <==> j < m)
        && (forall q | q in list :: q in all)
        && (forall q | q in list[0..m] :: q.nextTick <= now) && (forall q | q in tail :: q.nextTick > now)
    {
      hide NoDup, Sorted;
      OneList(Active(p));
      m := DuePrefix(lists[Active(p)], now);
      tail := lists[Active(p)][m..];
    }

    method Forget(r: AccountRequest)
      requires Linked() && Indexed() && r in all && r.place == Freed && r.completed
      modifies `all
      ensures Linked() && Indexed() && all == old(all) - {r}
    {
      hide NoDup, Sorted;
      all := all - {r};
    }

    /** Deleting a request unlinks it for good. */
    method Free(r: AccountRequest)
      requires Valid() && r in all && r.place == Deleting
      modifies `lists, `all, r`place
      ensures Valid() && all == old(all) - {r} && r.place == Freed
      ensures lists == old(lists)[Deleting := Without(old(lists)[Deleting], r)]
    {
      hide Valid, Linked, Indexed, NoDup, Sorted, Without;
      FromValid();
      Unlink(r);
      Forget(r);
      AllValid();
    }

    method ProcessPendingDeletes()
      requires Valid() && Settled()
      modifies `lists, `all, all`place
      ensures Valid() && Settled() && all <= old(all)
      ensures forall r | r in old(all) :: r in all <==> old(r.place) != Deleting
      ensures forall r | r in old(all) :: r.View() == Step1(old(r.View()), Sweep, EnvOf(r)).r
      ensures lists == old(lists)[Deleting := []]
    {
      hide Valid, Linked, Indexed, NoDup, Sorted, Without, RunDue;
      FromValid();
      OneList(Deleting);
      while lists[Deleting] != []
        decreases |all|
        invariant Valid() && all <= old(all) && Deleting in lists && lists == old(lists)[Deleting := lists[Deleting]]
        invariant forall r | r in all :: r.place == old(r.place)
        invariant forall r | r in old(all) && r !in all :: r.place == Freed && old(r.place) == Deleting
        invariant forall q | q in lists[Deleting] :: q in all && q.place == Deleting
        invariant forall q | q in all && q.place == Deleting :: q in lists[Deleting]
      {
        Free(lists[Deleting][0]);
        FromValid();
        OneList(Deleting);
      }
    }

    /** A walk, request by request: exactly the due ones are visited, once, and put off. */
    method WalkList(p: Phase) returns (ghost visited: seq<AccountRequest>)
      requires Valid() && Settled()
      modifies this, all
      ensures Valid() && Settled() && all == old(all) && now == old(now) && up == old(up)
      ensures NoDup(visited) && Snapshot() == RunAll(old(Snapshot()), visited, now, up)
      ensures forall r | r in visited :: r in all
      ensures forall r | r in all :: r in visited <==> old(r.place) == Active(p) && old(r.nextTick) <= now
      ensures forall r | r in all :: r.place == old(r.place)
      ensures forall r | r in all :: if r in visited then r.nextTick > now else r.nextTick == old(r.nextTick)
    {
      hide Valid, Linked, RunAll, RunDue, NoDup;
      ghost var board := Snapshot();
      FromValid();
      OneList(Active(p));
      ghost var list := lists[Active(p)];
      assert forall q | q in list :: q.phase == p && q.nextTick == board.views[q].nextTick;
      ghost var n := Walk(p);
      hide Settled;
      visited := list[..n];
      NoDupPrefix(list, n);
      RunAllFacts(board, visited, now, up);
      assert forall r | r in all :: r.View() == Snapshot().views[r];
      hide Snapshot;
      forall r | r in all
        ensures r in visited <==> old(r.place) == Active(p) && old(r.nextTick) <= now
        ensures r.place == old(r.place)
        ensures if r in visited then r.nextTick > now else r.nextTick == old(r.nextTick)
      {
        DuePutsOff(board.views[r], EnvAt(r, now, up));
      }
    }

    method WalkAll() returns (ghost visited: seq<AccountRequest>)
      requires Valid() && Settled()
      modifies this, all
      ensures Valid() && Settled() && all == old(all) && now == old(now) && up == old(up)
      ensures NoDup(visited) && Snapshot() == RunAll(old(Snapshot()), visited, now, up)
      ensures forall r | r in visited :: r in all
      ensures forall r | r in all :: r in visited <==> old(r.place.Active?) && old(r.nextTick) <= now
      ensures forall r | r in all && r.place.Active? :: r.nextTick > now
    {
      hide *;
      ghost var board := Snapshot();
      ghost var v0 := WalkList(Charge);
      ghost var v1 := WalkList(Validate);
      ghost var v2 := WalkList(Fulfill);
      RunConcat(board, v0, v1, now, up);
      RunConcat(board, v0 + v1, v2, now, up);
      NoDupConcat(v0, v1);
      NoDupConcat(v0 + v1, v2);
      visited := v0 + v1 + v2;
      forall r | r in all
        ensures r in visited <==> old(r.place.Active?) && old(r.nextTick) <= now
      {
        if r.place.Active? { match r.place.list case Charge => case Validate => case Fulfill => }
      }
    }

    /** One tick: every request that is due is run once and put off, none stays due, and the
        requests that were finished before the tick and not relinked are deleted. */
    method Tick() returns (ghost visited: seq<AccountRequest>)
      requires Valid() && Settled()
      modifies this, all
      ensures Valid() && Settled() && now == old(now) && up == old(up)
      ensures NoDup(visited) && sent == RunAll(old(Snapshot()), visited, now, up).sent
      ensures forall r | r in old(all) :: r in visited <==> old(r.place.Active?) && old(r.nextTick) <= now
      ensures forall r | r in old(all) :: r.View() ==
                if r in visited then RunDue(old(r.View()), EnvOf(r)).r else Step1(old(r.View()), Sweep, EnvOf(r)).r
      ensures all == set r | r in old(all) && old(r.place) != Deleting
      ensures forall r | r in all :: r.place.Active? && r.nextTick > now
    {
      hide Valid, Linked, Settled, NoDup, RunAll, RunDue;
      ghost var board := Snapshot();
      visited := WalkAll();
      RunAllFacts(board, visited, now, up);
      forall r | r in all
        ensures r.View() == if r in visited then RunDue(old(r.View()), EnvOf(r)).r else old(r.View())
        ensures r in visited ==> r.place.Active?
      {
        assert r.View() == Snapshot().views[r];
        DuePutsOff(board.views[r], EnvOf(r));
      }
      hide Snapshot;
      FromValid();
      ProcessPendingDeletes();
      FromValid();
    }
  }

  lemma {:induction false} RunConcat(b: Board, rs: seq<AccountRequest>, qs: seq<AccountRequest>, now: nat, up: set<nat>)
    ensures RunAll(b, rs + qs, now, up) == RunAll(RunAll(b, rs, now, up), qs, now, up)
  {
    hide VisitOne;
    if qs == [] {
      assert rs + qs == rs;
    } else {
      RunConcat(b, rs, qs[..|qs| - 1], now, up);
      assert (rs + qs)[..|rs + qs| - 1] == rs + qs[..|qs| - 1];
    }
  }

  lemma NoDupConcat(rs: seq<AccountRequest>, qs: seq<AccountRequest>)
    requires NoDup(rs) && NoDup(qs) && forall r | r in rs :: r !in qs
    ensures NoDup(rs + qs)
  {
    forall i, j | 0 <= i < j < |rs + qs| ensures (rs + qs)[i] != (rs + qs)[j] {
      assert i < |rs| ==> (rs + qs)[i] in rs;
      assert j >= |rs| ==> (rs + qs)[j] in qs;
    }
  }

  lemma DuePutsOff(r: Request, env: Env)
    ensures RunDue(r, env).r.place == Active(r.phase) && RunDue(r, env).r.nextTick > env.now
  {
    DueKeepsPhase(r, env);
    hide Lifecycle.RunState;
  }

  lemma NoDupPrefix(list: seq<AccountRequest>, n: nat)
    requires NoDup(list) && n <= |list|
    ensures NoDup(list[..n])
    ensures forall j | 0 <= j < |list| :: list[j] in list[..n] <==> j < n
  {
    forall j | 0 <= j < |list| ensures list[j] in list[..n] <==> j < n {
      if j < n { assert list[..n][j] == list[j]; }
    }
  }

  /** Visiting distinct requests does to each what a single visit does, whatever came before. */
  lemma {:induction false} RunAllFacts(b: Board, rs: seq<AccountRequest>, now: nat, up: set<nat>)
    requires NoDup(rs) && forall r | r in rs :: r in b.views
    ensures RunAll(b, rs, now, up).views.Keys == b.views.Keys
    ensures forall r | r in b.views :: RunAll(b, rs, now, up).views[r] ==
              if r in rs then RunDue(b.views[r], EnvAt(r, now, up)).r else b.views[r]
  {
    hide RunDue;
    if rs != [] {
      var most := rs[..|rs| - 1];
      assert rs == most + [rs[|rs| - 1]];
      RunAllFacts(b, most, now, up);
    }
  }

  lemma NoDupHead(r: AccountRequest, rest: seq<AccountRequest>)
    requires NoDup([r] + rest)
    ensures r !in rest
  {
    assert forall j | 0 <= j < |rest| :: rest[j] == ([r] + rest)[j + 1] != ([r] + rest)[0];
  }

  /** The link after r in a list, or the first link after the list's head (null); null at the end. */
  function Next(list: seq<AccountRequest>, r: AccountRequest?): AccountRequest? {
    if list == [] then null
    else if r == null then list[0]
    else if list[0] == r then (if |list| > 1 then list[1] else null)
    else Next(list[1..], r)
  }

  /** A sorted list begins with what is due. */
  lemma DuePrefix(list: seq<AccountRequest>, now: nat) returns (m: nat)
    requires Sorted(list)
    ensures m <= |list|
    ensures forall j | 0 <= j < |list| :: list[j].nextTick <= now <==> j < m
  {
    m := 0;
    while m < |list| && list[m].nextTick <= now
      invariant m <= |list|
      invariant forall j | 0 <= j < m :: list[j].nextTick <= now
    {
      m := m + 1;
    }
  }

  lemma WithoutHead(r: AccountRequest, due: seq<AccountRequest>, tail: seq<AccountRequest>)
    requires NoDup([r] + due + tail)
    ensures Without([r] + due + tail, r) == due + tail && r !in due && r !in tail
  {
    var list := [r] + due + tail;
    assert list[1..] == due + tail;
    assert forall j | 0 <= j < |list[1..]| :: list[1..][j] == list[j + 1] != list[0];
    WithoutAbsent(list[1..], r);
    assert forall q | q in due || q in tail :: q in list[1..];
  }

  /** Where a request lands when it goes back, later than now, into a sorted list with the due ones first. */
  lemma LandsInTail(list: seq<AccountRequest>, r: AccountRequest, due: seq<AccountRequest>, tail: seq<AccountRequest>, now: nat)
    returns (tail': seq<AccountRequest>)
    requires NoDup(list) && Sorted(list) && r in list && Without(list, r) == due + tail
    requires r.nextTick > now && forall q | q in due :: q.nextTick <= now
    ensures list == due + tail' && forall q | q in tail' :: q in tail || q == r
  {
    var k := InsertedSomewhere(list, r);
    BehindDue(list, r, due, tail, k, now);
    hide NoDup, Sorted, Without;
    var n := k - |due|;
    var ahead, after := tail[..n], tail[n..];
    assert (due + tail)[..k] == due + ahead && (due + tail)[k..] == after;
    tail' := ahead + [r] + after;
    PutBack(due, ahead, r, after);
    assert tail == ahead + after;
  }

  lemma PutBack(due: seq<AccountRequest>, ahead: seq<AccountRequest>, r: AccountRequest, after: seq<AccountRequest>)
    ensures (due + ahead) + [r] + after == due + (ahead + [r] + after)
    ensures forall q | q in ahead + [r] + after :: q in ahead + after || q == r
  {
  }

  /** A later tick cannot stand before one that is due. */
  lemma BehindDue(list: seq<AccountRequest>, r: AccountRequest, due: seq<AccountRequest>, tail: seq<AccountRequest>, k: nat, now: nat)
    requires Sorted(list) && k <= |due + tail| && list == (due + tail)[..k] + [r] + (due + tail)[k..]
    requires r.nextTick > now && forall q | q in due :: q.nextTick <= now
    ensures |due| <= k
  {
    if due != [] {
      var j := |due| - 1;
      var i := if j < k then j else j + 1;
      assert list[k] == r && list[i] == due[j] && due[j] in due;
      assert list[if i < k then i else k].nextTick <= list[if i < k then k else i].nextTick;
    }
  }

  lemma DueKeepsPhase(r: Request, env: Env)
    ensures Lifecycle.RunState(r, true, env).r.phase == r.phase
  {
    StateFulfillFair(r, env);
  }

  /** Between events a linked request is on the list of its phase. */
  predicate Placing(r: Request) {
    r.place.Active? ==> r.place.list == r.phase
  }

  lemma RelinkedPlacing(r: Request, phase: Phase, env: Env)
    ensures Placing(Lifecycle.ChangeState(r, phase, env).r)
    ensures Placing(RunDue(r, env).r)
  {
    hide Lifecycle.RunState;
    RunPlaces(r.(phase := phase), false, env);
    RunPlaces(r, true, env);
  }

  /** A phase method leaves the phase as it is, or enters the next one and places the request there. */
  lemma RunPlaces(r: Request, timeout: bool, env: Env)
    ensures var out := Lifecycle.RunState(r, timeout, env); out.r.phase == r.phase || Placing(out.r)
  {
    hide Lifecycle.StateFulfill, Lifecycle.Complete;
    StateFulfillFair(r, env);
    StateFulfillFair(r.(phase := Fulfill), env);
    CompleteKeepsPhase(r);
  }

  lemma CompleteKeepsPhase(r: Request)
    ensures Lifecycle.Complete(r, false).r.phase == r.phase
  {
  }

  lemma SettledAfter(r: Request, e: Event, env: Env)
    ensures Placing(r) ==> Placing(Step1(r, e, env).r)
  {
    hide Lifecycle.ChangeState, RunDue, Fits;
    RelinkedPlacing(r, Validate, env);
    RelinkedPlacing(r, Fulfill, env);
    RelinkedPlacing(r.(xfer := r.xfer.(srcConfirmed := true)), Fulfill, env);
    RelinkedPlacing(r.(xfer := r.xfer.(dstConfirmed := true)), Fulfill, env);
    if e.XferReply? {
      RelinkedPlacing(r.(xfer := NextXfer(r.xfer, e.reply)), Fulfill, env);
    }
  }

  lemma RunLinked(r: Request, timeout: bool, env: Env)
    requires r.place != Freed
    ensures Lifecycle.RunState(r, timeout, env).r.place != Freed
  {
  }

  /** The last place of a sorted list that has nothing later before it. */
  method PlaceNearTail(list: seq<AccountRequest>, tick: nat) returns (k: nat)
    requires Sorted(list) && tick < CLOCK_LIMIT && forall q | q in list :: q.nextTick < CLOCK_LIMIT
    ensures k <= |list|
    ensures forall j | 0 <= j < |list| :: list[j].nextTick <= tick <==> j < k
  {
    hide Compare;
    k := |list|;
    while k > 0 && Compare(tick, list[k - 1].nextTick) < 0
      invariant k <= |list|
      invariant forall j | k <= j < |list| :: tick < list[j].nextTick
    {
      CompareOrders(tick, list[k - 1].nextTick);
      k := k - 1;
    }
    if k > 0 { CompareOrders(tick, list[k - 1].nextTick); }
  }

  lemma InsertNoDup(list: seq<AccountRequest>, k: nat, r: AccountRequest)
    requires r !in list && k <= |list| && NoDup(list)
    ensures NoDup(list[..k] + [r] + list[k..])
    ensures forall q :: q in list[..k] + [r] + list[k..] <==> q in list || q == r
  {
    var t := list[..k] + [r] + list[k..];
    assert forall j | 0 <= j < |t| :: t[j] == if j < k then list[j] else if j == k then r else list[j - 1];
    assert list == list[..k] + list[k..];
  }

  /** Putting r at a place of a sorted list before which nothing is later and after which everything is. */
  lemma InsertSorted(list: seq<AccountRequest>, k: nat, r: AccountRequest)
    requires Sorted(list) && k <= |list|
    requires forall j | 0 <= j < |list| :: list[j].nextTick <= r.nextTick <==> j < k
    ensures Sorted(list[..k] + [r] + list[k..])
  {
    var t := list[..k] + [r] + list[k..];
    assert forall j | 0 <= j < |t| :: t[j] == if j < k then list[j] else if j == k then r else list[j - 1];
  }

  lemma WithoutAgain(list: seq<AccountRequest>, r: AccountRequest)
    ensures Without(Without(list, r), r) == Without(list, r)
  {
    WithoutMembers(list, r);
    WithoutAbsent(Without(list, r), r);
  }

  lemma WithoutFacts(list: seq<AccountRequest>, r: AccountRequest)
    requires NoDup(list)
    ensures NoDup(Without(list, r))
    ensures forall q :: q in Without(list, r) <==> q in list && q != r
    ensures Sorted(list) ==> Sorted(Without(list, r))
    ensures r !in list ==> Without(list, r) == list
  {
    if r !in list { WithoutAbsent(list, r); }
    WithoutMembers(list, r);
    WithoutNoDup(list, r);
    if Sorted(list) { WithoutSorted(list, r); }
  }

  lemma {:induction false} WithoutSorted(list: seq<AccountRequest>, r: AccountRequest)
    requires Sorted(list)
    ensures Sorted(Without(list, r))
  {
    if list != [] {
      WithoutSorted(list[1..], r);
      var rest := Without(list[1..], r);
      forall j | 0 <= j < |rest|
        ensures list[0].nextTick <= rest[j].nextTick
      {
        WithoutMembers(list[1..], r);
        assert rest[j] in list[1..];
      }
    }
  }
}

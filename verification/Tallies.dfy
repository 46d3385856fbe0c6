/**
 What the books come to, told by the tasks that were carried out and not by the log they keep:
 every order counts once, with the amounts it names, until it is reverted.
 */
module Tallies {
  import opened OrderLedger
  import opened Compensation

  /** What an item grants: of an expiring product at most 400. */
  function Granted(s: Schema, item: Item): int {
    if item.sku in s.expiring && item.granted > 400 then 400 else item.granted
  }

  function Sum(a: Totals, b: Totals): Totals {
    Totals(a.granted + b.granted, a.claimed + b.claimed, a.saved + b.saved)
  }

  // ---------- one task ----------

  /** A game order that has not been logged adds what it grants to the granted total of its account
      and product, what it claims to the claimed one, and moves nothing else. */
  lemma AddGameAdds(s: Schema, db: Db, auth: nat, item: Item, key: (nat, nat))
    requires forall r | r in db.log :: r.order != item.order
    ensures Get(Exec(s, db, auth, AddGame(item)).db.inv, key) ==
            if key == (auth, item.sku) then Sum(Get(db.inv, key), Totals(Granted(s, item), item.claimed, 0)) else Get(db.inv, key)
  {
  }

  /** A purchase that has not been logged adds its quantity to the granted total. */
  lemma AddMicroAdds(s: Schema, db: Db, auth: nat, order: nat, sku: nat, quantity: int, key: (nat, nat))
    requires forall p | p in db.mtx :: p.order != order
    ensures var done := Exec(s, db, auth, AddMicro(order, sku, quantity)).db;
            && done.log == db.log && done.mtx == db.mtx + [Purchase(order, auth, sku, quantity)]
            && Get(done.inv, key) == if key == (auth, sku) then Sum(Get(db.inv, key), Totals(quantity, 0, 0)) else Get(db.inv, key)
  {
  }

  /** The amounts that items name for an account and product. */
  function Named(s: Schema, auth: nat, items: seq<Item>, key: (nat, nat)): Totals {
    if items == [] then Totals(0, 0, 0)
    else
      var i := items[|items| - 1];
      Sum(Named(s, auth, items[..|items| - 1], key),
          if key == (auth, i.sku) then Totals(Granted(s, i), i.claimed, 0) else Totals(0, 0, 0))
  }

  ghost predicate OwnIds(items: seq<Item>) {
    forall i, j | 0 <= i < j < |items| :: items[i].order != items[j].order
  }

  /** Every row was there before, or is one of the items'. */
  ghost predicate OnlyTheirs(log: seq<Row>, before: seq<Row>, items: seq<Item>) {
    forall r | r in log :: r in before || exists i :: i in items && r.order == i.order
  }

  ghost predicate NewTo(log: seq<Row>, items: seq<Item>) {
    forall r, i | r in log && i in items :: r.order != i.order
  }

  lemma NextIsNew(log: seq<Row>, before: seq<Row>, most: seq<Item>, last: Item)
    requires OwnIds(most + [last]) && NewTo(before, most + [last]) && OnlyTheirs(log, before, most)
    ensures OwnIds(most) && NewTo(before, most) && forall r | r in log :: r.order != last.order
  {
    var items := most + [last];
    assert items[|most|] == last && last in items && forall i | i in most :: i in items;
    assert forall k | 0 <= k < |most| :: items[k] == most[k];
    forall r | r in log ensures r.order != last.order {
      if r !in before {
        var i :| i in most && r.order == i.order;
        var k :| 0 <= k < |most| && most[k] == i;
        assert items[k].order != items[|most|].order;
      }
    }
  }

  lemma MoreTheirs(log: seq<Row>, middle: seq<Row>, before: seq<Row>, most: seq<Item>, last: Item)
    requires OnlyTheirs(middle, before, most) && forall r | r in log :: r in middle || r.order == last.order
    ensures OnlyTheirs(log, before, most + [last])
  {
    assert last in most + [last];
    forall r | r in log ensures r in before || exists i :: i in most + [last] && r.order == i.order {
      if r in middle && r !in before {
        var i :| i in most && r.order == i.order;
        assert i in most + [last];
      }
    }
  }

  lemma {:induction false} AddEachTheirs(s: Schema, db: Db, auth: nat, items: seq<Item>, parent: nat)
    ensures OnlyTheirs(AddEach(s, db, auth, items, parent).db.log, db.log, items)
  {
    hide OnlyTheirs;
    if items == [] {
      NoneYet(db.log, items);
    } else {
      var most, last := items[..|items| - 1], items[|items| - 1];
      assert items == most + [last];
      AddEachTheirs(s, db, auth, most, parent);
      var before := AddEach(s, db, auth, most, parent).db;
      MoreTheirs(AddOne(s, before, auth, last, parent).db.log, before.log, db.log, most, last);
    }
  }

  lemma {:induction false} AddEachAdds(s: Schema, db: Db, auth: nat, items: seq<Item>, parent: nat, key: (nat, nat))
    requires OwnIds(items) && NewTo(db.log, items)
    ensures Get(AddEach(s, db, auth, items, parent).db.inv, key) == Sum(Get(db.inv, key), Named(s, auth, items, key))
  {
    hide OnlyTheirs, OwnIds, NewTo, AddOne, Granted, Get;
    if items != [] {
      var most, last := items[..|items| - 1], items[|items| - 1];
      assert items == most + [last];
      var before := AddEach(s, db, auth, most, parent).db;
      PrefixNew(db.log, most, last);
      AddEachAdds(s, db, auth, most, parent, key);
      AddEachTheirs(s, db, auth, most, parent);
      NextIsNew(before.log, db.log, most, last);
      AddOneAdds(s, before, auth, last, parent, key);
    }
  }

  lemma NoneYet(log: seq<Row>, items: seq<Item>)
    ensures OnlyTheirs(log, log, items)
  {
  }

  lemma PrefixNew(log: seq<Row>, most: seq<Item>, last: Item)
    requires OwnIds(most + [last]) && NewTo(log, most + [last])
    ensures OwnIds(most) && NewTo(log, most)
  {
    var items := most + [last];
    assert forall k | 0 <= k < |most| :: items[k] == most[k];
  }

  lemma AddOneAdds(s: Schema, db: Db, auth: nat, item: Item, parent: nat, key: (nat, nat))
    requires forall r | r in db.log :: r.order != item.order
    ensures var done := AddOne(s, db, auth, item, parent).db;
            && Get(done.inv, key) ==
               (if key == (auth, item.sku) then Sum(Get(db.inv, key), Totals(Granted(s, item), item.claimed, 0)) else Get(db.inv, key))
            && forall r | r in done.log :: r in db.log || r.order == item.order
  {
  }

  /** A multi order adds what its items name, item by item. */
  lemma AddMultiAdds(s: Schema, db: Db, auth: nat, parent: nat, items: seq<Item>, key: (nat, nat))
    requires OwnIds(items) && (forall r, i | r in db.log && i in items :: r.order != i.order)
    requires parent != 0 && forall r | r in db.log :: r.parent != parent
    ensures Get(Exec(s, db, auth, AddMulti(parent, items)).db.inv, key) == Sum(Get(db.inv, key), Named(s, auth, items, key))
  {
    hide AddEach, Named, OwnIds, OnlyTheirs, Get;
    assert NewTo(db.log, items);
    hide NewTo;
    AddEachAdds(s, db, auth, items, parent, key);
  }

  // ---------- whole runs ----------

  /** A save or revert, by the account, of the order or of the multi order it belongs to. */
  predicate Speaks(t: Task, auth: nat, order: nat, parent: nat) {
    (t.op.Save? || t.op.Revert?) && t.auth == auth && (t.op.search == order || (parent != 0 && t.op.search == parent))
  }

  ghost predicate Reversed(tasks: seq<Task>, auth: nat, order: nat, parent: nat) {
    exists k :: 0 <= k < |tasks| && tasks[k].op.Revert? && Speaks(tasks[k], auth, order, parent)
  }

  /** It is saved, and not reverted before. */
  ghost predicate Secured(tasks: seq<Task>, auth: nat, order: nat, parent: nat) {
    exists k :: 0 <= k < |tasks| && tasks[k].op.Save? && Speaks(tasks[k], auth, order, parent)
                && !Reversed(tasks[..k], auth, order, parent)
  }

  /** What an item of an order is worth in the end, after the tasks that follow its add. */
  ghost function Gain(s: Schema, auth: nat, item: Item, parent: nat, after: seq<Task>): Totals {
    if s.fallback == No && Secured(after, auth, item.order, parent) then
      Totals(Granted(s, item), item.claimed, if item.claimed > 0 then item.claimed else 0)
    else if s.fallback == No && Reversed(after, auth, item.order, parent) then Totals(0, 0, 0)
    else Totals(Granted(s, item), item.claimed, 0)
  }

  ghost function Gains(s: Schema, auth: nat, items: seq<Item>, parent: nat, after: seq<Task>, key: (nat, nat)): Totals {
    if items == [] then Totals(0, 0, 0)
    else
      var i := items[|items| - 1];
      Sum(Gains(s, auth, items[..|items| - 1], parent, after, key),
          if key == (auth, i.sku) then Gain(s, auth, i, parent, after) else Totals(0, 0, 0))
  }

  /** What one task comes to. */
  ghost function Share(s: Schema, t: Task, after: seq<Task>, key: (nat, nat)): Totals {
    match t.op
    case AddMicro(_, sku, quantity) => if key == (t.auth, sku) then Totals(quantity, 0, 0) else Totals(0, 0, 0)
    case AddGame(item) => Gains(s, t.auth, [item], 0, after, key)
    case AddMulti(parent, items) => Gains(s, t.auth, items, parent, after, key)
    case _ => Totals(0, 0, 0)
  }

  ghost function Tally(s: Schema, tasks: seq<Task>, key: (nat, nat)): Totals {
    if tasks == [] then Totals(0, 0, 0) else Sum(Share(s, tasks[0], tasks[1..], key), Tally(s, tasks[1..], key))
  }

  function IdsOf(op: Op): set<nat> {
    match op
    case AddGame(item) => {item.order}
    case AddMulti(parent, items) => {parent} + set i | i in items :: i.order
    case _ => {}
  }

  /** No later task adds under the ids of this one. */
  ghost predicate FirstUse(t: Task, later: seq<Task>) {
    && 0 !in IdsOf(t.op) && (t.op.AddMulti? ==> OwnIds(t.op.items))
    && (forall x | x in later :: AddsOthers(x.op, IdsOf(t.op)))
    && (t.op.AddMicro? ==> forall x | x in later && x.op.AddMicro? :: x.op.order != t.op.order)
  }

  /** Every id is given out once. */
  ghost predicate OnceEach(tasks: seq<Task>) {
    tasks != [] ==> FirstUse(tasks[0], tasks[1..]) && OnceEach(tasks[1..])
  }

  lemma TouchesSpeaks(t: Task, r: Row)
    ensures Touches(t, r) <==> Speaks(t, r.auth, r.order, r.parent)
  {
  }

  lemma ReversedIs(tasks: seq<Task>, r: Row)
    ensures Reversed(tasks, r.auth, r.order, r.parent) <==> Reverted(r, tasks)
  {
    forall t ensures Touches(t, r) <==> Speaks(t, r.auth, r.order, r.parent) {
      TouchesSpeaks(t, r);
    }
    hide Touches, Speaks;
  }

  lemma SecuredIs(tasks: seq<Task>, r: Row)
    ensures Secured(tasks, r.auth, r.order, r.parent) <==> SavedFirst(r, tasks)
  {
    forall t ensures Touches(t, r) <==> Speaks(t, r.auth, r.order, r.parent) {
      TouchesSpeaks(t, r);
    }
    forall k | 0 <= k <= |tasks| ensures Reversed(tasks[..k], r.auth, r.order, r.parent) <==> Reverted(r, tasks[..k]) {
      ReversedIs(tasks[..k], r);
    }
    hide Touches, Speaks, Reversed, Reverted;
  }

  // --- one order's share ---------------------------------------------------

  lemma {:induction false} LogSumConcat(a: seq<Row>, b: seq<Row>, key: (nat, nat))
    ensures LogSum(a + b, key) == Sum(LogSum(a, key), LogSum(b, key))
  {
    if b == [] {
      assert a + b == a;
    } else {
      var most, last := b[..|b| - 1], b[|b| - 1];
      assert b == most + [last] && a + b == (a + most) + [last];
      LogSumConcat(a, most, key);
      LogSumLast(a + most, last, key);
      LogSumLast(most, last, key);
      hide LogSum;
    }
  }

  lemma WorthConcat(fallback: Bit, a: seq<Row>, b: seq<Row>, key: (nat, nat))
    ensures Worth(fallback, a + b, key) == Sum(Worth(fallback, a, key), Worth(fallback, b, key))
  {
    LogSumConcat(a, b, key);
    hide LogSum;
  }

  lemma OneWorth(fallback: Bit, r: Row, key: (nat, nat))
    ensures Worth(fallback, [r], key) ==
            if key == (r.auth, r.sku)
            then Totals(r.granted, r.claimed, if fallback != Yes && r.saved == Yes && r.claimed > 0 then r.claimed else 0)
            else Totals(0, 0, 0)
  {
    assert [] + [r] == [r];
    LogSumLast([], r, key);
  }

  /** What is left of one item's row is worth what the item gains. */
  lemma RowGain(s: Schema, auth: nat, item: Item, parent: nat, after: seq<Task>, key: (nat, nat))
    ensures var r := RowOf(s, auth, item, parent);
            Worth(s.fallback, if s.fallback == No then Fate(r, after) else [r], key) ==
            if key == (auth, item.sku) then Gain(s, auth, item, parent, after) else Totals(0, 0, 0)
  {
    var r := RowOf(s, auth, item, parent);
    ReversedIs(after, r);
    SecuredIs(after, r);
    hide Reversed, Reverted, Secured, SavedFirst;
    OneWorth(s.fallback, r, key);
    OneWorth(s.fallback, r.(saved := Yes), key);
    assert Worth(s.fallback, [], key) == Totals(0, 0, 0);
    hide Worth;
  }

  lemma {:induction false} WrittenOrders(s: Schema, auth: nat, items: seq<Item>, parent: nat)
    ensures forall r | r in Written(s, auth, items, parent) :: exists i :: i in items && r.order == i.order
  {
    if items != [] {
      var most, last := items[..|items| - 1], items[|items| - 1];
      WrittenOrders(s, auth, most, parent);
      assert last in items;
      forall r | r in Written(s, auth, items, parent) ensures exists i :: i in items && r.order == i.order {
        if r in Written(s, auth, most, parent) {
          var i :| i in most && r.order == i.order;
          assert i in items;
        }
      }
    }
  }

  lemma WrittenLast(s: Schema, auth: nat, most: seq<Item>, last: Item, parent: nat)
    requires OwnIds(most + [last])
    ensures Written(s, auth, most + [last], parent) == Written(s, auth, most, parent) + [RowOf(s, auth, last, parent)]
  {
    var items := most + [last];
    assert items[..|most|] == most && items[|most|] == last;
    WrittenOrders(s, auth, most, parent);
    forall r | r in Written(s, auth, most, parent) ensures r.order != last.order {
      var i :| i in most && r.order == i.order;
      var k :| 0 <= k < |most| && most[k] == i;
      assert items[k].order != items[|most|].order;
    }
  }

  /** What the saves and reverts leave of rows. */
  ghost function Stay(s: Schema, rows: seq<Row>, after: seq<Task>): seq<Row> {
    if s.fallback == No then Left(rows, after) else rows
  }

  lemma StayLast(s: Schema, rows: seq<Row>, r: Row, after: seq<Task>, key: (nat, nat))
    ensures Worth(s.fallback, Stay(s, rows + [r], after), key) ==
            Sum(Worth(s.fallback, Stay(s, rows, after), key),
                Worth(s.fallback, if s.fallback == No then Fate(r, after) else [r], key))
  {
    LeftOneMore(rows, r, after);
    hide Left, Fate, Worth, Sum;
    WorthConcat(s.fallback, Stay(s, rows, after), if s.fallback == No then Fate(r, after) else [r], key);
  }

  /** The rows left of a multi order are worth what its items gain. */
  lemma {:induction false} ItemsGain(s: Schema, auth: nat, items: seq<Item>, parent: nat, after: seq<Task>, key: (nat, nat))
    requires OwnIds(items)
    ensures Worth(s.fallback, Stay(s, Written(s, auth, items, parent), after), key) == Gains(s, auth, items, parent, after, key)
  {
    hide OwnIds, Worth, Gain, Fate, RowOf, Sum;
    if items == [] {
      NoWorth(s.fallback, key);
    } else {
      var most, last := items[..|items| - 1], items[|items| - 1];
      assert items == most + [last];
      FewerIds(most, last);
      hide Left, Stay;
      ItemsGain(s, auth, most, parent, after, key);
      WrittenLast(s, auth, most, last, parent);
      hide Written;
      StayLast(s, Written(s, auth, most, parent), RowOf(s, auth, last, parent), after, key);
      RowGain(s, auth, last, parent, after, key);
    }
  }

  lemma LeftOneMore(rows: seq<Row>, r: Row, after: seq<Task>)
    ensures Left(rows + [r], after) == Left(rows, after) + Fate(r, after)
  {
    assert (rows + [r])[..|rows|] == rows;
  }

  lemma NoWorth(fallback: Bit, key: (nat, nat))
    ensures Worth(fallback, [], key) == Totals(0, 0, 0)
  {
  }

  lemma FewerIds(most: seq<Item>, last: Item)
    requires OwnIds(most + [last])
    ensures OwnIds(most)
  {
    assert forall k | 0 <= k < |most| :: (most + [last])[k] == most[k];
  }

  /** What is left of an order is worth its share. */
  lemma OrderShare(s: Schema, t: Task, after: seq<Task>, key: (nat, nat))
    requires t.op.AddGame? || (t.op.AddMulti? && OwnIds(t.op.items))
    ensures Worth(s.fallback, Leftover(s, t.auth, t.op, after), key) == Share(s, t, after, key)
  {
    match t.op
    case AddGame(item) =>
      var r := RowOf(s, t.auth, item, 0);
      RowGain(s, t.auth, item, 0, after, key);
      assert [] + [r] == [r] && [item][..0] == [];
      LeftOneMore([], r, after);
      assert Left([], after) == [] && [] + Fate(r, after) == Fate(r, after);
      assert Gains(s, t.auth, [], 0, after, key) == Totals(0, 0, 0);
      hide Worth, Gain, Fate, RowOf, Left;
    case AddMulti(parent, items) =>
      ItemsGain(s, t.auth, items, parent, after, key);
      hide Worth, Gain, Fate, RowOf, Left, Written, Gains;
  }

  // --- the order's own saves and reverts concern nobody else ------------------

  lemma ReversedLast(tasks: seq<Task>, t: Task, auth: nat, order: nat, parent: nat)
    ensures Reversed(tasks + [t], auth, order, parent) <==>
            Reversed(tasks, auth, order, parent) || (t.op.Revert? && Speaks(t, auth, order, parent))
  {
    var all := tasks + [t];
    hide Speaks;
    assert all[|tasks|] == t;
    if k :| 0 <= k < |tasks| && tasks[k].op.Revert? && Speaks(tasks[k], auth, order, parent) {
      assert all[k] == tasks[k];
    }
  }

  lemma SecuredLast(tasks: seq<Task>, t: Task, auth: nat, order: nat, parent: nat)
    ensures Secured(tasks + [t], auth, order, parent) <==>
            Secured(tasks, auth, order, parent) || (t.op.Save? && Speaks(t, auth, order, parent) && !Reversed(tasks, auth, order, parent))
  {
    var all := tasks + [t];
    assert all[|tasks|] == t && all[..|tasks|] == tasks;
    hide Reversed, Speaks;
    assert forall k | 0 <= k < |tasks| :: all[k] == tasks[k] && all[..k] == tasks[..k];
  }

  lemma {:induction false} SpeaksApart(tasks: seq<Task>, ids: set<nat>, auth: nat, order: nat, parent: nat)
    requires order !in ids && parent !in ids
    ensures Reversed(Apart(tasks, ids), auth, order, parent) <==> Reversed(tasks, auth, order, parent)
    ensures Secured(Apart(tasks, ids), auth, order, parent) <==> Secured(tasks, auth, order, parent)
  {
    hide Reversed, Secured;
    if tasks != [] {
      var most, t := tasks[..|tasks| - 1], tasks[|tasks| - 1];
      assert tasks == most + [t];
      SpeaksApart(most, ids, auth, order, parent);
      ReversedLast(most, t, auth, order, parent);
      SecuredLast(most, t, auth, order, parent);
      ReversedLast(Apart(most, ids), t, auth, order, parent);
      SecuredLast(Apart(most, ids), t, auth, order, parent);
      assert Apart(most, ids) + [] == Apart(most, ids);
    }
  }

  lemma GainApart(s: Schema, auth: nat, item: Item, parent: nat, after: seq<Task>, ids: set<nat>)
    requires item.order !in ids && parent !in ids
    ensures Gain(s, auth, item, parent, Apart(after, ids)) == Gain(s, auth, item, parent, after)
  {
    SpeaksApart(after, ids, auth, item.order, parent);
    hide Reversed, Secured;
  }

  lemma {:induction false} GainsApart(s: Schema, auth: nat, items: seq<Item>, parent: nat, after: seq<Task>, ids: set<nat>, key: (nat, nat))
    requires parent !in ids && forall i | i in items :: i.order !in ids
    ensures Gains(s, auth, items, parent, Apart(after, ids), key) == Gains(s, auth, items, parent, after, key)
  {
    hide Gain;
    if items != [] {
      assert items[|items| - 1] in items;
      GainsApart(s, auth, items[..|items| - 1], parent, after, ids, key);
      GainApart(s, auth, items[|items| - 1], parent, after, ids);
    }
  }

  lemma ShareApart(s: Schema, t: Task, after: seq<Task>, ids: set<nat>, key: (nat, nat))
    requires Foreign(t.op, ids) && 0 !in ids
    ensures Share(s, t, Apart(after, ids), key) == Share(s, t, after, key)
  {
    hide Gains;
    match t.op
    case AddGame(item) => GainsApart(s, t.auth, [item], 0, after, ids, key);
    case AddMulti(parent, items) => GainsApart(s, t.auth, items, parent, after, ids, key);
    case _ =>
  }

  lemma ApartLast(tasks: seq<Task>, t: Task, ids: set<nat>)
    ensures Apart(tasks + [t], ids) == Apart(tasks, ids) + (if Names(t.op, ids) then [] else [t])
  {
    assert (tasks + [t])[..|tasks|] == tasks;
  }

  lemma {:induction false} ApartFront(t: Task, rest: seq<Task>, ids: set<nat>)
    ensures Apart([t] + rest, ids) == (if Names(t.op, ids) then [] else [t]) + Apart(rest, ids)
  {
    if rest == [] {
      assert [t] + rest == [] + [t];
      ApartLast([], t, ids);
    } else {
      var most, last := rest[..|rest| - 1], rest[|rest| - 1];
      ApartFront(t, most, ids);
      assert rest == most + [last] && [t] + rest == ([t] + most) + [last];
      ApartLast(most, last, ids);
      ApartLast([t] + most, last, ids);
      hide Apart, Names;
    }
  }

  lemma {:induction false} TallyApart(s: Schema, rest: seq<Task>, ids: set<nat>, key: (nat, nat))
    requires 0 !in ids && forall t | t in rest :: AddsOthers(t.op, ids)
    ensures Tally(s, Apart(rest, ids), key) == Tally(s, rest, key)
  {
    if rest != [] {
      var t, tail := rest[0], rest[1..];
      assert rest == [t] + tail && t in rest && forall x | x in tail :: x in rest;
      TallyApart(s, tail, ids, key);
      ApartFront(t, tail, ids);
      if Names(t.op, ids) {
        assert Share(s, t, tail, key) == Totals(0, 0, 0);
        assert [] + Apart(tail, ids) == Apart(tail, ids);
      } else {
        ShareApart(s, t, tail, ids, key);
        assert ([t] + Apart(tail, ids))[1..] == Apart(tail, ids);
      }
      hide Share, Foreign;
    }
  }

  lemma {:induction false} ApartOf(rest: seq<Task>, ids: set<nat>)
    ensures forall t | t in Apart(rest, ids) :: t in rest
    ensures |Apart(rest, ids)| <= |rest|
  {
    if rest != [] {
      ApartOf(rest[..|rest| - 1], ids);
    }
  }

  lemma {:induction false} OnceApart(rest: seq<Task>, ids: set<nat>)
    requires OnceEach(rest)
    ensures OnceEach(Apart(rest, ids))
  {
    if rest != [] {
      var t, tail := rest[0], rest[1..];
      assert rest == [t] + tail;
      OnceApart(tail, ids);
      ApartFront(t, tail, ids);
      assert FirstUse(t, Apart(tail, ids)) by { ApartOf(tail, ids); hide AddsOthers, IdsOf, OwnIds, Apart; }
      hide FirstUse, Apart, Names;
      assert ([t] + Apart(tail, ids))[1..] == Apart(tail, ids);
      assert [] + Apart(tail, ids) == Apart(tail, ids);
    }
  }

  // --- the sum ------------------------------------------------------------------

  lemma RunFront(s: Schema, db: Db, t: Task, rest: seq<Task>)
    ensures Run(s, db, [t] + rest) == Run(s, Exec(s, db, t.auth, t.op).db, rest)
  {
    RunConcat(s, db, [t], rest);
    RunOne(s, db, t);
  }

  /** An add, from books without a log: the rest runs as without it, and its share comes on top. */
  lemma AddShares(s: Schema, db: Db, t: Task, rest: seq<Task>, key: (nat, nat))
    requires db.log == [] && (t.op.AddGame? || (t.op.AddMulti? && OwnIds(t.op.items))) && 0 !in IdsOf(t.op)
    requires forall x | x in rest :: AddsOthers(x.op, IdsOf(t.op))
    ensures Get(Run(s, db, [t] + rest).inv, key) ==
            Sum(Get(Run(s, db, Apart(rest, IdsOf(t.op))).inv, key), Share(s, t, rest, key))
  {
    var ids := IdsOf(t.op);
    var search := if t.op.AddGame? then t.op.item.order else t.op.parent;
    assert Opens(t.op, search, ids) && search in ids;
    RunFront(s, db, t, rest);
    OrderShare(s, t, rest, key);
    hide Exec, Run, Share, Worth, Opens, IdsOf, AddsOthers, Leftover, OwnIds;
    FreshPaired(s, db, t.auth, search, ids);
    NetEffect(s, db, db, t.auth, t.op, rest, search, ids);
    hide Beside;
  }

  ghost predicate MicrosNew(db: Db, tasks: seq<Task>) {
    forall t, p | t in tasks && t.op.AddMicro? && p in db.mtx :: p.order != t.op.order
  }

  /** The total comes to what it was and the tally of the tasks. */
  ghost predicate Comes(s: Schema, db: Db, tasks: seq<Task>, key: (nat, nat)) {
    Get(Run(s, db, tasks).inv, key) == Sum(Get(db.inv, key), Tally(s, tasks, key))
  }

  /** From books without a log, whatever tasks run for whatever accounts: every total is what it was
      and what the purchases and orders name, each once, less the orders that were reverted in time. */
  lemma {:induction false} TotalsAreTally(s: Schema, db: Db, tasks: seq<Task>, key: (nat, nat))
    requires db.log == [] && OnceEach(tasks) && MicrosNew(db, tasks)
    ensures Comes(s, db, tasks, key)
    decreases |tasks|, 1
  {
    hide Comes, OnceEach, MicrosNew, FirstUse, Exec;
    if tasks == [] {
      NoTally(s, db, key);
    } else {
      var t, rest := tasks[0], tasks[1..];
      assert tasks == [t] + rest;
      FrontOnce(t, rest);
      MicrosFewer(db, t, rest, rest);
      if t.op.AddMicro? {
        MicroNew(s, db, t, rest);
        TotalsAreTally(s, Exec(s, db, t.auth, t.op).db, rest, key);
        MicroFirst(s, db, t, rest, key);
      } else if t.op.Save? || t.op.Revert? {
        TotalsAreTally(s, db, rest, key);
        SweepFirst(s, db, t, rest, key);
      } else {
        AddFirstTally(s, db, t, rest, key);
      }
    }
  }

  lemma NoTally(s: Schema, db: Db, key: (nat, nat))
    ensures Comes(s, db, [], key)
  {
  }

  lemma TallyFront(s: Schema, t: Task, rest: seq<Task>, key: (nat, nat))
    ensures Tally(s, [t] + rest, key) == Sum(Share(s, t, rest, key), Tally(s, rest, key))
  {
    assert ([t] + rest)[1..] == rest;
    hide Share;
  }

  lemma SweepFirst(s: Schema, db: Db, t: Task, rest: seq<Task>, key: (nat, nat))
    requires db.log == [] && (t.op.Save? || t.op.Revert?) && Comes(s, db, rest, key)
    ensures Comes(s, db, [t] + rest, key)
  {
    hide Exec, Run, Tally, Share, Get;
    RunFront(s, db, t, rest);
    TallyFront(s, t, rest, key);
    SweepNothing(s, db, t);
    SweepShare(s, t, rest, key);
  }

  lemma SweepShare(s: Schema, t: Task, rest: seq<Task>, key: (nat, nat))
    requires t.op.Save? || t.op.Revert?
    ensures Share(s, t, rest, key) == Totals(0, 0, 0)
  {
  }

  lemma SweepNothing(s: Schema, db: Db, t: Task)
    requires db.log == [] && (t.op.Save? || t.op.Revert?)
    ensures Exec(s, db, t.auth, t.op).db == db
  {
  }

  lemma MicroNew(s: Schema, db: Db, t: Task, rest: seq<Task>)
    requires db.log == [] && t.op.AddMicro? && MicrosNew(db, [t] + rest) && FirstUse(t, rest)
    ensures Exec(s, db, t.auth, t.op).db.log == [] && MicrosNew(Exec(s, db, t.auth, t.op).db, rest)
  {
    hide Exec, Get, Sum, AddsOthers, IdsOf;
    assert t in [t] + rest && forall x | x in rest :: x in [t] + rest;
    AddMicroAdds(s, db, t.auth, t.op.order, t.op.sku, t.op.quantity, (0, 0));
  }

  lemma MicroFirst(s: Schema, db: Db, t: Task, rest: seq<Task>, key: (nat, nat))
    requires t.op.AddMicro? && MicrosNew(db, [t] + rest) && Comes(s, Exec(s, db, t.auth, t.op).db, rest, key)
    ensures Comes(s, db, [t] + rest, key)
  {
    hide Run, Exec, Get, Tally;
    assert t in [t] + rest;
    RunFront(s, db, t, rest);
    TallyFront(s, t, rest, key);
    AddMicroAdds(s, db, t.auth, t.op.order, t.op.sku, t.op.quantity, key);
    hide MicrosNew;
  }

  lemma {:induction false} AddFirstTally(s: Schema, db: Db, t: Task, rest: seq<Task>, key: (nat, nat))
    requires db.log == [] && OnceEach([t] + rest) && MicrosNew(db, [t] + rest) && (t.op.AddGame? || t.op.AddMulti?)
    ensures Comes(s, db, [t] + rest, key)
    decreases |rest| + 1, 0
  {
    hide Comes, OnceEach, MicrosNew, Exec, AddsOthers, IdsOf, OwnIds;
    FrontOnce(t, rest);
    var some := Apart(rest, IdsOf(t.op));
    ApartOf(rest, IdsOf(t.op));
    OnceApart(rest, IdsOf(t.op));
    MicrosFewer(db, t, rest, some);
    TotalsAreTally(s, db, some, key);
    AddComes(s, db, t, rest, key);
  }

  lemma AddComes(s: Schema, db: Db, t: Task, rest: seq<Task>, key: (nat, nat))
    requires db.log == [] && (t.op.AddGame? || t.op.AddMulti?) && FirstUse(t, rest)
    requires Comes(s, db, Apart(rest, IdsOf(t.op)), key)
    ensures Comes(s, db, [t] + rest, key)
  {
    hide Exec, Run, Share, IdsOf, AddsOthers, OwnIds, Get, Apart;
    AddShares(s, db, t, rest, key);
    TallyApart(s, rest, IdsOf(t.op), key);
    TallyFront(s, t, rest, key);
    hide Tally;
  }

  lemma FrontOnce(t: Task, rest: seq<Task>)
    requires OnceEach([t] + rest)
    ensures FirstUse(t, rest) && OnceEach(rest)
  {
    assert ([t] + rest)[1..] == rest;
    hide FirstUse;
  }

  lemma MicrosFewer(db: Db, t: Task, rest: seq<Task>, some: seq<Task>)
    requires MicrosNew(db, [t] + rest) && forall x | x in some :: x in rest
    ensures MicrosNew(db, some)
  {
    assert forall x | x in rest :: x in [t] + rest;
  }
}

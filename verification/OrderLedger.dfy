/**
 The stored procedures behind the account server's order tasks, and the books they
 keep: totals that always equal what the two logs say, an add that counts once per
 order id, and what is left of an order after any saves and reverts of it.
 */
module OrderLedger {

  /** A nullable bit column. */
  datatype Bit = Null | No | Yes

  datatype Row = Row(order: nat, parent: nat, auth: nat, sku: nat, granted: int, claimed: int, saved: Bit)

  datatype Purchase = Purchase(order: nat, auth: nat, sku: nat, quantity: int)

  datatype Totals = Totals(granted: int, claimed: int, saved: int)

  datatype InvRow = InvRow(sku: nat, totals: Totals)

  /** `fallback` is what the log's saved column holds in a new row; `expiring` are the
      products with an expiry, of which one order grants at most 400. */
  datatype Schema = Schema(fallback: Bit, expiring: set<nat>)

  const GRANT_CAP := 400

  datatype Db = Db(log: seq<Row>, mtx: seq<Purchase>, inv: map<(nat, nat), Totals>)

  datatype Item = Item(order: nat, sku: nat, granted: int, claimed: int)

  datatype Op =
    | AddMicro(order: nat, sku: nat, quantity: int)
    | AddGame(item: Item)
    | AddMulti(parent: nat, items: seq<Item>)
    | Save(search: nat)
    | Revert(search: nat)

  datatype Result = Result(db: Db, rows: seq<InvRow>)

  // ---------------------------------------------------------------------
  //  The procedures
  // ---------------------------------------------------------------------

  function Get(inv: map<(nat, nat), Totals>, key: (nat, nat)): Totals {
    if key in inv then inv[key] else Totals(0, 0, 0)
  }

  function Plus(t: Totals, granted: int, claimed: int, saved: int): Totals {
    Totals(t.granted + granted, t.claimed + claimed, t.saved + saved)
  }

  /** The select that ends each step: the row of the account and product, if there is one. */
  function Reported(db: Db, auth: nat, sku: nat): seq<InvRow> {
    if (auth, sku) in db.inv then [InvRow(sku, db.inv[(auth, sku)])] else []
  }

  predicate Logged(log: seq<Row>, order: nat) {
    exists r | r in log :: r.order == order
  }

  predicate Bought(mtx: seq<Purchase>, order: nat) {
    exists p | p in mtx :: p.order == order
  }

  function Capped(s: Schema, item: Item): int {
    if item.sku in s.expiring && item.granted > GRANT_CAP then GRANT_CAP else item.granted
  }

  function RowOf(s: Schema, auth: nat, item: Item, parent: nat): Row {
    Row(item.order, parent, auth, item.sku, Capped(s, item), item.claimed, s.fallback)
  }

  function AddOne(s: Schema, db: Db, auth: nat, item: Item, parent: nat): Result {
    var key := (auth, item.sku);
    var db' :=
      if Logged(db.log, item.order) then db
      else
        db.(log := db.log + [RowOf(s, auth, item, parent)],
            inv := db.inv[key := Plus(Get(db.inv, key), Capped(s, item), item.claimed, 0)]);
    Result(db', Reported(db', auth, item.sku))
  }

  function AddEach(s: Schema, db: Db, auth: nat, items: seq<Item>, parent: nat): Result {
    if items == [] then Result(db, [])
    else
      var first := AddEach(s, db, auth, items[..|items| - 1], parent);
      var last := AddOne(s, first.db, auth, items[|items| - 1], parent);
      Result(last.db, first.rows + last.rows)
  }

  /** The rows of an order: its own, and those filed under it (a parent of 0 is null). */
  predicate Belongs(r: Row, search: nat) {
    r.order == search || (r.parent != 0 && r.parent == search)
  }

  /** The rows that saving or reverting an order works on. */
  predicate Matches(r: Row, auth: nat, search: nat) {
    Belongs(r, search) && r.auth == auth && r.saved == No
  }

  function Amend(db: Db, key: (nat, nat), granted: int, claimed: int, saved: int): Db {
    if key in db.inv then db.(inv := db.inv[key := Plus(db.inv[key], granted, claimed, saved)]) else db
  }

  /** The revert's loop body: a matching row is taken back and not kept in the log. */
  function RevertRow(db: Db, r: Row, auth: nat, search: nat): Result {
    if Matches(r, auth, search) then
      var db' := Amend(db, (auth, r.sku), -r.granted, -r.claimed, 0);
      Result(db', Reported(db', auth, r.sku))
    else Result(db.(log := db.log + [r]), [])
  }

  /** The save's loop body: a matching row is marked, and its claim counted as saved. */
  function SaveRow(db: Db, r: Row, auth: nat, search: nat): Result {
    if Matches(r, auth, search) then
      var db' := if r.claimed > 0 then Amend(db, (auth, r.sku), 0, 0, r.claimed) else db;
      Result(db'.(log := db.log + [r.(saved := Yes)]), Reported(db', auth, r.sku))
    else Result(db.(log := db.log + [r]), [])
  }

  /** The cursor loops: the rows of `log` are read in turn, and the kept ones collected in the result. */
  function RevertEach(db: Db, log: seq<Row>, auth: nat, search: nat): Result {
    if log == [] then Result(db.(log := []), [])
    else
      var done := RevertEach(db, log[..|log| - 1], auth, search);
      var last := RevertRow(done.db, log[|log| - 1], auth, search);
      Result(last.db, done.rows + last.rows)
  }

  function SaveEach(db: Db, log: seq<Row>, auth: nat, search: nat): Result {
    if log == [] then Result(db.(log := []), [])
    else
      var done := SaveEach(db, log[..|log| - 1], auth, search);
      var last := SaveRow(done.db, log[|log| - 1], auth, search);
      Result(last.db, done.rows + last.rows)
  }

  function Buy(db: Db, auth: nat, order: nat, sku: nat, quantity: int): Result {
    var key := (auth, sku);
    var db' :=
      if Bought(db.mtx, order) then db
      else
        db.(mtx := db.mtx + [Purchase(order, auth, sku, quantity)],
            inv := db.inv[key := Plus(Get(db.inv, key), quantity, 0, 0)]);
    Result(db', Reported(db', auth, sku))
  }

  /** One successful task of an account. */
  function Exec(s: Schema, db: Db, auth: nat, op: Op): Result {
    match op
    case AddMicro(order, sku, quantity) => Buy(db, auth, order, sku, quantity)
    case AddGame(item) => AddOne(s, db, auth, item, 0)
    case AddMulti(parent, items) =>
      if exists r | r in db.log :: r.parent != 0 && r.parent == parent then Result(db, []) else AddEach(s, db, auth, items, parent)
    case Save(search) => SaveEach(db, db.log, auth, search)
    case Revert(search) => RevertEach(db, db.log, auth, search)
  }

  datatype Task = Task(auth: nat, op: Op)

  function Run(s: Schema, db: Db, tasks: seq<Task>): Db {
    if tasks == [] then db
    else
      var t := tasks[|tasks| - 1];
      Exec(s, Run(s, db, tasks[..|tasks| - 1]), t.auth, t.op).db
  }

  // ---------------------------------------------------------------------
  //  The books balance
  // ---------------------------------------------------------------------

  function LogSum(log: seq<Row>, key: (nat, nat)): Totals {
    if log == [] then Totals(0, 0, 0)
    else
      var r := log[|log| - 1];
      var t := LogSum(log[..|log| - 1], key);
      if (r.auth, r.sku) == key then
        Plus(t, r.granted, r.claimed, if r.saved == Yes && r.claimed > 0 then r.claimed else 0)
      else t
  }

  function BuySum(mtx: seq<Purchase>, key: (nat, nat)): int {
    if mtx == [] then 0
    else
      var p := mtx[|mtx| - 1];
      BuySum(mtx[..|mtx| - 1], key) + (if (p.auth, p.sku) == key then p.quantity else 0)
  }

  /** What the logs say an account holds of a product. */
  function Owed(log: seq<Row>, mtx: seq<Purchase>, key: (nat, nat)): Totals {
    Plus(LogSum(log, key), BuySum(mtx, key), 0, 0)
  }

  /** Every logged order and purchase has its inventory row, and every total is the sum of the logs. */
  ghost predicate Balanced(db: Db) {
    && (forall r | r in db.log :: (r.auth, r.sku) in db.inv)
    && (forall p | p in db.mtx :: (p.auth, p.sku) in db.inv)
    && (forall key :: Get(db.inv, key) == Owed(db.log, db.mtx, key))
  }

  lemma LogSumLast(log: seq<Row>, r: Row, key: (nat, nat))
    ensures LogSum(log + [r], key) ==
            if (r.auth, r.sku) == key then
              Plus(LogSum(log, key), r.granted, r.claimed, if r.saved == Yes && r.claimed > 0 then r.claimed else 0)
            else LogSum(log, key)
  {
    assert (log + [r])[..|log|] == log;
  }

  lemma BuySumLast(mtx: seq<Purchase>, p: Purchase, key: (nat, nat))
    ensures BuySum(mtx + [p], key) == BuySum(mtx, key) + if (p.auth, p.sku) == key then p.quantity else 0
  {
    assert (mtx + [p])[..|mtx|] == mtx;
  }

  lemma AddOneBalanced(s: Schema, db: Db, auth: nat, item: Item, parent: nat)
    requires Balanced(db) && s.fallback != Yes
    ensures Balanced(AddOne(s, db, auth, item, parent).db)
  {
    var db' := AddOne(s, db, auth, item, parent).db;
    hide LogSum, BuySum;
    forall key
      ensures Get(db'.inv, key) == Owed(db'.log, db'.mtx, key)
    {
      assert Get(db.inv, key) == Owed(db.log, db.mtx, key);
      LogSumLast(db.log, RowOf(s, auth, item, parent), key);
    }
  }

  lemma {:induction false} AddEachBalanced(s: Schema, db: Db, auth: nat, items: seq<Item>, parent: nat)
    requires Balanced(db) && s.fallback != Yes
    ensures Balanced(AddEach(s, db, auth, items, parent).db)
  {
    hide AddOne, Balanced;
    if items != [] {
      AddEachBalanced(s, db, auth, items[..|items| - 1], parent);
      AddOneBalanced(s, AddEach(s, db, auth, items[..|items| - 1], parent).db, auth, items[|items| - 1], parent);
    }
  }

  lemma BuyBalanced(db: Db, auth: nat, order: nat, sku: nat, quantity: int)
    requires Balanced(db)
    ensures Balanced(Buy(db, auth, order, sku, quantity).db)
  {
    var db' := Buy(db, auth, order, sku, quantity).db;
    hide LogSum, BuySum;
    forall key
      ensures Get(db'.inv, key) == Owed(db'.log, db'.mtx, key)
    {
      assert Get(db.inv, key) == Owed(db.log, db.mtx, key);
      BuySumLast(db.mtx, Purchase(order, auth, sku, quantity), key);
    }
  }

  /** The totals and the log moved together. */
  ghost predicate InStep(inv: map<(nat, nat), Totals>, log: seq<Row>, inv': map<(nat, nat), Totals>, log': seq<Row>) {
    forall key :: Plus(Get(inv', key), LogSum(log, key).granted, LogSum(log, key).claimed, LogSum(log, key).saved)
               == Plus(Get(inv, key), LogSum(log', key).granted, LogSum(log', key).claimed, LogSum(log', key).saved)
  }

  ghost predicate HasRows(inv: map<(nat, nat), Totals>, log: seq<Row>) {
    forall r | r in log :: (r.auth, r.sku) in inv
  }

  lemma RowInStep(db: Db, r: Row, auth: nat, search: nat, saving: bool)
    requires (r.auth, r.sku) in db.inv
    ensures var done := (if saving then SaveRow(db, r, auth, search) else RevertRow(db, r, auth, search)).db;
            && done.inv.Keys == db.inv.Keys && done.mtx == db.mtx
            && (HasRows(db.inv, db.log) ==> HasRows(db.inv, done.log))
            && InStep(db.inv, db.log + [r], done.inv, done.log)
  {
    var done := (if saving then SaveRow(db, r, auth, search) else RevertRow(db, r, auth, search)).db;
    hide LogSum;
    forall key
      ensures Plus(Get(done.inv, key), LogSum(db.log + [r], key).granted, LogSum(db.log + [r], key).claimed, LogSum(db.log + [r], key).saved)
           == Plus(Get(db.inv, key), LogSum(done.log, key).granted, LogSum(done.log, key).claimed, LogSum(done.log, key).saved)
    {
      LogSumLast(db.log, r, key);
      LogSumLast(db.log, r.(saved := Yes), key);
    }
  }

  lemma InStepThen(a: Db, rest: seq<Row>, b: Db, r: Row, c: Db)
    requires InStep(a.inv, rest, b.inv, b.log) && InStep(b.inv, b.log + [r], c.inv, c.log)
    ensures InStep(a.inv, rest + [r], c.inv, c.log)
  {
    hide LogSum;
    forall key
      ensures Plus(Get(c.inv, key), LogSum(rest + [r], key).granted, LogSum(rest + [r], key).claimed, LogSum(rest + [r], key).saved)
           == Plus(Get(a.inv, key), LogSum(c.log, key).granted, LogSum(c.log, key).claimed, LogSum(c.log, key).saved)
    {
      LogSumLast(rest, r, key);
      LogSumLast(b.log, r, key);
    }
  }

  lemma {:induction false} EachInStep(db: Db, log: seq<Row>, auth: nat, search: nat, saving: bool)
    requires HasRows(db.inv, log)
    ensures var done := (if saving then SaveEach(db, log, auth, search) else RevertEach(db, log, auth, search)).db;
            && done.inv.Keys == db.inv.Keys && done.mtx == db.mtx && HasRows(db.inv, done.log)
            && InStep(db.inv, log, done.inv, done.log)
  {
    hide InStep, RevertRow, SaveRow;
    if log == [] {
      assert InStep(db.inv, [], db.inv, []) by { InStepRefl(db.inv); }
    } else {
      var rest, r := log[..|log| - 1], log[|log| - 1];
      EachInStep(db, rest, auth, search, saving);
      var before := (if saving then SaveEach(db, rest, auth, search) else RevertEach(db, rest, auth, search)).db;
      RowInStep(before, r, auth, search, saving);
      assert log == rest + [r];
      InStepThen(db, rest, before, r, (if saving then SaveRow(before, r, auth, search) else RevertRow(before, r, auth, search)).db);
    }
  }

  lemma InStepRefl(inv: map<(nat, nat), Totals>)
    ensures InStep(inv, [], inv, [])
  {
  }

  lemma ExecBalanced(s: Schema, db: Db, auth: nat, op: Op)
    requires Balanced(db) && s.fallback != Yes
    ensures Balanced(Exec(s, db, auth, op).db)
  {
    hide LogSum, BuySum, RevertEach, SaveEach, AddOne, AddEach, Buy;
    match op
    case AddMicro(order, sku, quantity) => BuyBalanced(db, auth, order, sku, quantity);
    case AddGame(item) => AddOneBalanced(s, db, auth, item, 0);
    case AddMulti(parent, items) => AddEachBalanced(s, db, auth, items, parent);
    case Save(search) => EachInStep(db, db.log, auth, search, true);
    case Revert(search) => EachInStep(db, db.log, auth, search, false);
  }

  /** Whatever orders, saves and reverts run, in any order and for any accounts, the totals
      are exactly what the two logs add up to. */
  lemma {:induction false} RunBalanced(s: Schema, db: Db, tasks: seq<Task>)
    requires Balanced(db) && s.fallback != Yes
    ensures Balanced(Run(s, db, tasks))
  {
    hide Exec, Balanced;
    if tasks != [] {
      RunBalanced(s, db, tasks[..|tasks| - 1]);
      ExecBalanced(s, Run(s, db, tasks[..|tasks| - 1]), tasks[|tasks| - 1].auth, tasks[|tasks| - 1].op);
    }
  }

  // ---------------------------------------------------------------------
  //  What is left of an order
  // ---------------------------------------------------------------------

  /** The rows whose id is, or is not, among `ids`. */
  function Part(log: seq<Row>, ids: set<nat>, inside: bool): seq<Row> {
    if log == [] then []
    else
      var r := log[|log| - 1];
      Part(log[..|log| - 1], ids, inside) + (if (r.order in ids) == inside then [r] else [])
  }

  /** A task that does not speak of any of the ids. */
  predicate Foreign(op: Op, ids: set<nat>) {
    match op
    case AddMicro(_, _, _) => true
    case AddGame(item) => item.order !in ids
    case AddMulti(parent, items) => parent !in ids && forall i | i in items :: i.order !in ids
    case Save(search) => search !in ids
    case Revert(search) => search !in ids
  }

  /** A save or a revert of one of the ids, whoever asks for it. */
  predicate Names(op: Op, ids: set<nat>) {
    (op.Save? || op.Revert?) && op.search in ids
  }

  /** Ids are given out once: apart from its own add, a task only saves or reverts an order. */
  predicate AddsOthers(op: Op, ids: set<nat>) {
    Foreign(op, ids) || Names(op, ids)
  }

  /** The tasks without the saves and reverts of the ids. */
  function Apart(tasks: seq<Task>, ids: set<nat>): seq<Task> {
    if tasks == [] then []
    else
      var t := tasks[|tasks| - 1];
      Apart(tasks[..|tasks| - 1], ids) + (if Names(t.op, ids) then [] else [t])
  }

  /** The rows of an order carry its account and its ids; no other row does. */
  ghost predicate Held(log: seq<Row>, auth: nat, search: nat, ids: set<nat>) {
    && search in ids && 0 !in ids
    && (forall r | r in log && r.order in ids ::
          Belongs(r, search) && r.auth == auth && (r.parent == 0 || r.parent == search))
    && (forall r | r in log && r.order !in ids :: r.parent !in ids)
  }

  /** The logs with the order's rows `own`, beside those that never saw it. */
  ghost predicate Beside(db: Db, plain: Db, auth: nat, search: nat, ids: set<nat>, own: seq<Row>) {
    && Held(db.log, auth, search, ids)
    && Part(db.log, ids, true) == own
    && Part(db.log, ids, false) == plain.log && db.mtx == plain.mtx
  }

  /** What rows are worth to an account: a new row that comes marked as saved was never counted as saved. */
  function Worth(fallback: Bit, own: seq<Row>, key: (nat, nat)): Totals {
    var t := LogSum(own, key);
    if fallback == Yes then t.(saved := 0) else t
  }

  ghost predicate Worthless(fallback: Bit, own: seq<Row>) {
    forall key :: Worth(fallback, own, key) == Totals(0, 0, 0)
  }

  /** Every total exceeds the other one's by what the rows are worth. */
  ghost predicate Exceeds(inv: map<(nat, nat), Totals>, plain: map<(nat, nat), Totals>, fallback: Bit, own: seq<Row>) {
    forall key ::
      Get(inv, key) == Plus(Get(plain, key), Worth(fallback, own, key).granted, Worth(fallback, own, key).claimed, Worth(fallback, own, key).saved)
  }

  /** Logs and totals with the order's rows, beside those that never saw it. */
  ghost predicate Paired(s: Schema, db: Db, plain: Db, auth: nat, search: nat, ids: set<nat>, own: seq<Row>) {
    && Beside(db, plain, auth, search, ids, own)
    && HasRows(db.inv, db.log) && HasRows(plain.inv, plain.log)
    && Exceeds(db.inv, plain.inv, s.fallback, own)
    && (s.fallback != No ==> forall r | r in own :: r.saved == s.fallback)
  }

  lemma PartLast(log: seq<Row>, r: Row, ids: set<nat>, inside: bool)
    ensures Part(log + [r], ids, inside) == Part(log, ids, inside) + (if (r.order in ids) == inside then [r] else [])
  {
    assert (log + [r])[..|log|] == log;
  }

  lemma {:induction false} PartMembers(log: seq<Row>, ids: set<nat>, inside: bool)
    ensures forall r :: r in Part(log, ids, inside) <==> r in log && (r.order in ids) == inside
  {
    if log != [] {
      PartMembers(log[..|log| - 1], ids, inside);
      assert log == log[..|log| - 1] + [log[|log| - 1]];
    }
  }

  lemma PartSumsLast(most: seq<Row>, inside: seq<Row>, outside: seq<Row>, r: Row, key: (nat, nat), own: bool)
    requires LogSum(most, key) == Plus(LogSum(outside, key), LogSum(inside, key).granted, LogSum(inside, key).claimed, LogSum(inside, key).saved)
    ensures var inside', outside' := if own then inside + [r] else inside, if own then outside else outside + [r];
            LogSum(most + [r], key) == Plus(LogSum(outside', key), LogSum(inside', key).granted, LogSum(inside', key).claimed, LogSum(inside', key).saved)
  {
    LogSumLast(most, r, key);
    LogSumLast(if own then inside else outside, r, key);
    hide LogSum;
  }

  lemma {:induction false} PartSums(log: seq<Row>, ids: set<nat>, key: (nat, nat))
    ensures var inside := LogSum(Part(log, ids, true), key);
            LogSum(log, key) == Plus(LogSum(Part(log, ids, false), key), inside.granted, inside.claimed, inside.saved)
  {
    if log != [] {
      var most, r := log[..|log| - 1], log[|log| - 1];
      assert log == most + [r];
      PartLast(most, r, ids, true);
      PartLast(most, r, ids, false);
      hide Part, LogSum, Plus;
      PartSums(most, ids, key);
      assert Part(most, ids, true) + [] == Part(most, ids, true) && Part(most, ids, false) + [] == Part(most, ids, false);
      PartSumsLast(most, Part(most, ids, true), Part(most, ids, false), r, key, r.order in ids);
    } else {
      assert Part(log, ids, true) == Part(log, ids, false) == [];
    }
  }

  // --- the cursor loops on the log -----------------------------------------

  /** What the cursor loops leave of a log. */
  function Swept(log: seq<Row>, auth: nat, search: nat, saving: bool): seq<Row> {
    if log == [] then []
    else
      var r := log[|log| - 1];
      Swept(log[..|log| - 1], auth, search, saving)
      + (if !Matches(r, auth, search) then [r] else if saving then [r.(saved := Yes)] else [])
  }

  lemma SweptLast(log: seq<Row>, r: Row, auth: nat, search: nat, saving: bool)
    ensures Swept(log + [r], auth, search, saving) == Swept(log, auth, search, saving)
            + (if !Matches(r, auth, search) then [r] else if saving then [r.(saved := Yes)] else [])
  {
    assert (log + [r])[..|log|] == log;
  }

  lemma {:induction false} EachSweeps(db: Db, log: seq<Row>, auth: nat, search: nat)
    ensures RevertEach(db, log, auth, search).db.log == Swept(log, auth, search, false)
    ensures SaveEach(db, log, auth, search).db.log == Swept(log, auth, search, true)
    ensures RevertEach(db, log, auth, search).db.mtx == SaveEach(db, log, auth, search).db.mtx == db.mtx
  {
    if log != [] {
      EachSweeps(db, log[..|log| - 1], auth, search);
    }
  }

  /** No sweep changes whose a row is. */
  lemma {:induction false} SweepHolds(log: seq<Row>, auth: nat, search: nat, ids: set<nat>, other: nat, sought: nat, saving: bool)
    requires Held(log, auth, search, ids)
    ensures Held(Swept(log, other, sought, saving), auth, search, ids)
  {
    if log != [] {
      var most, r := log[..|log| - 1], log[|log| - 1];
      assert r in log;
      SweepHolds(most, auth, search, ids, other, sought, saving);
    }
  }

  /** A sweep does to the order's rows, and to all others, what it does to them alone. */
  lemma {:induction false} SweepParts(log: seq<Row>, ids: set<nat>, inside: bool, other: nat, sought: nat, saving: bool)
    ensures Part(Swept(log, other, sought, saving), ids, inside) == Swept(Part(log, ids, inside), other, sought, saving)
  {
    if log != [] {
      var most, r := log[..|log| - 1], log[|log| - 1];
      SweepParts(most, ids, inside, other, sought, saving);
      var rest, part := Swept(most, other, sought, saving), Part(most, ids, inside);
      assert log == most + [r];
      PartLast(most, r, ids, inside);
      SweptLast(most, r, other, sought, saving);
      SweptLast(part, r, other, sought, saving);
      PartLast(rest, r, ids, inside);
      PartLast(rest, r.(saved := Yes), ids, inside);
      assert rest + [] == rest && part + [] == part;
      hide Part, Swept, Matches;
    }
  }

  /** Rows that a sweep cannot match. */
  lemma {:induction false} SweepSpares(log: seq<Row>, auth: nat, search: nat, saving: bool)
    requires forall r | r in log :: !Matches(r, auth, search)
    ensures Swept(log, auth, search, saving) == log
  {
    if log != [] {
      assert log[|log| - 1] in log;
      SweepSpares(log[..|log| - 1], auth, search, saving);
    }
  }

  /** A sweep for one of the order's ids changes none of the others' rows, and the other way round. */
  lemma SweepKeepsPart(log: seq<Row>, auth: nat, search: nat, ids: set<nat>, inside: bool, other: nat, sought: nat, saving: bool)
    requires Held(log, auth, search, ids) && (inside <==> sought !in ids)
    ensures Swept(Part(log, ids, inside), other, sought, saving) == Part(log, ids, inside)
  {
    PartMembers(log, ids, inside);
    SweepSpares(Part(log, ids, inside), other, sought, saving);
  }

  /** A revert finds exactly the order's rows that are marked as not saved. */
  lemma {:induction false} RevertFinds(log: seq<Row>, auth: nat, search: nat, ids: set<nat>)
    requires Held(log, auth, search, ids)
    ensures forall r :: r in Swept(log, auth, search, false) <==> r in log && !(r.order in ids && r.saved == No)
  {
    if log != [] {
      var most, r := log[..|log| - 1], log[|log| - 1];
      assert log == most + [r];
      RevertFinds(most, auth, search, ids);
    }
  }

  // --- tasks of other orders -----------------------------------------------

  lemma AddOneBeside(s: Schema, db: Db, plain: Db, auth: nat, item: Item, parent: nat, owner: nat, search: nat, ids: set<nat>, own: seq<Row>)
    requires Beside(db, plain, owner, search, ids, own) && item.order !in ids && parent !in ids
    ensures Beside(AddOne(s, db, auth, item, parent).db, AddOne(s, plain, auth, item, parent).db, owner, search, ids, own)
    ensures Logged(db.log, item.order) <==> Logged(plain.log, item.order)
  {
    var r := RowOf(s, auth, item, parent);
    PartMembers(db.log, ids, false);
    PartLast(db.log, r, ids, true);
    PartLast(db.log, r, ids, false);
    hide Part;
  }

  lemma BothGain(inv: map<(nat, nat), Totals>, plain: map<(nat, nat), Totals>, fallback: Bit, own: seq<Row>, at: (nat, nat), granted: int, claimed: int)
    requires Exceeds(inv, plain, fallback, own)
    ensures Exceeds(inv[at := Plus(Get(inv, at), granted, claimed, 0)], plain[at := Plus(Get(plain, at), granted, claimed, 0)], fallback, own)
  {
    hide Worth;
  }

  lemma AddOnePaired(s: Schema, db: Db, plain: Db, auth: nat, item: Item, parent: nat, owner: nat, search: nat, ids: set<nat>, own: seq<Row>)
    requires Paired(s, db, plain, owner, search, ids, own) && item.order !in ids && parent !in ids
    ensures Paired(s, AddOne(s, db, auth, item, parent).db, AddOne(s, plain, auth, item, parent).db, owner, search, ids, own)
  {
    AddOneBeside(s, db, plain, auth, item, parent, owner, search, ids, own);
    BothGain(db.inv, plain.inv, s.fallback, own, (auth, item.sku), Capped(s, item), item.claimed);
    hide Beside, Worth, Logged, Capped, Exceeds, Get, Plus;
  }

  lemma {:induction false} AddEachPaired(s: Schema, db: Db, plain: Db, auth: nat, items: seq<Item>, parent: nat, owner: nat, search: nat, ids: set<nat>, own: seq<Row>)
    requires Paired(s, db, plain, owner, search, ids, own)
    requires parent !in ids && forall i | i in items :: i.order !in ids
    ensures Paired(s, AddEach(s, db, auth, items, parent).db, AddEach(s, plain, auth, items, parent).db, owner, search, ids, own)
  {
    hide AddOne, Paired;
    if items != [] {
      var most := items[..|items| - 1];
      AddEachPaired(s, db, plain, auth, most, parent, owner, search, ids, own);
      AddOnePaired(s, AddEach(s, db, auth, most, parent).db, AddEach(s, plain, auth, most, parent).db, auth, items[|items| - 1], parent, owner, search, ids, own);
    }
  }

  lemma ExecSweeps(s: Schema, db: Db, auth: nat, op: Op)
    requires HasRows(db.inv, db.log) && (op.Save? || op.Revert?)
    ensures var done := Exec(s, db, auth, op).db;
            && done.log == Swept(db.log, auth, op.search, op.Save?) && done.mtx == db.mtx && HasRows(done.inv, done.log)
            && InStep(db.inv, db.log, done.inv, done.log)
  {
    hide RevertEach, SaveEach, Swept, InStep;
    EachSweeps(db, db.log, auth, op.search);
    EachInStep(db, db.log, auth, op.search, op.Save?);
  }

  /** A save or revert moves the totals by what it does to the log. */
  lemma SweepMoves(s: Schema, db: Db, auth: nat, op: Op, key: (nat, nat))
    requires HasRows(db.inv, db.log) && (op.Save? || op.Revert?)
    ensures var done, sum, sum' := Exec(s, db, auth, op).db, LogSum(db.log, key), LogSum(Exec(s, db, auth, op).db.log, key);
            && done.log == Swept(db.log, auth, op.search, op.Save?) && done.mtx == db.mtx && HasRows(done.inv, done.log)
            && Get(done.inv, key) ==
               Plus(Get(db.inv, key), sum'.granted - sum.granted, sum'.claimed - sum.claimed, sum'.saved - sum.saved)
  {
    hide Exec, Swept, HasRows, LogSum, Get;
    ExecSweeps(s, db, auth, op);
  }

  /** And so by what it does to the order's rows and to the others. */
  lemma SweepTotal(s: Schema, db: Db, auth: nat, op: Op, ids: set<nat>, key: (nat, nat))
    requires HasRows(db.inv, db.log) && (op.Save? || op.Revert?)
    ensures var done := Exec(s, db, auth, op).db;
            var own, own' := LogSum(Part(db.log, ids, true), key), LogSum(Part(done.log, ids, true), key);
            var rest, rest' := LogSum(Part(db.log, ids, false), key), LogSum(Part(done.log, ids, false), key);
            Get(done.inv, key) == Plus(Plus(Get(db.inv, key), own'.granted - own.granted, own'.claimed - own.claimed, own'.saved - own.saved),
                                       rest'.granted - rest.granted, rest'.claimed - rest.claimed, rest'.saved - rest.saved)
  {
    hide Exec, Part, Swept, LogSum;
    SweepMoves(s, db, auth, op, key);
    PartSums(db.log, ids, key);
    PartSums(Exec(s, db, auth, op).db.log, ids, key);
  }

  lemma SweepLogs(s: Schema, db: Db, auth: nat, op: Op, owner: nat, search: nat, ids: set<nat>)
    requires HasRows(db.inv, db.log) && Held(db.log, owner, search, ids) && (op.Save? || op.Revert?)
    ensures var done := Exec(s, db, auth, op).db;
            && done.mtx == db.mtx && HasRows(done.inv, done.log) && Held(done.log, owner, search, ids)
            && Part(done.log, ids, true) == Swept(Part(db.log, ids, true), auth, op.search, op.Save?)
            && Part(done.log, ids, false) == Swept(Part(db.log, ids, false), auth, op.search, op.Save?)
  {
    SweepHolds(db.log, owner, search, ids, auth, op.search, op.Save?);
    SweepParts(db.log, ids, true, auth, op.search, op.Save?);
    SweepParts(db.log, ids, false, auth, op.search, op.Save?);
    hide Exec, Part, Swept, LogSum, Held;
    SweepMoves(s, db, auth, op, (0, 0));
  }

  lemma SweepPaired(s: Schema, db: Db, plain: Db, auth: nat, op: Op, owner: nat, search: nat, ids: set<nat>, own: seq<Row>)
    requires Paired(s, db, plain, owner, search, ids, own) && (op.Save? || op.Revert?) && op.search !in ids
    ensures Paired(s, Exec(s, db, auth, op).db, Exec(s, plain, auth, op).db, owner, search, ids, own)
  {
    var with, without := Exec(s, db, auth, op).db, Exec(s, plain, auth, op).db;
    hide Exec, Part, Swept, LogSum, Held, HasRows;
    SweepLogs(s, db, auth, op, owner, search, ids);
    SweepKeepsPart(db.log, owner, search, ids, true, auth, op.search, op.Save?);
    SweepMoves(s, plain, auth, op, (0, 0));
    forall key ensures Get(with.inv, key) ==
      Plus(Get(without.inv, key), Worth(s.fallback, own, key).granted, Worth(s.fallback, own, key).claimed, Worth(s.fallback, own, key).saved)
    {
      SweepMoves(s, plain, auth, op, key);
      SweepTotal(s, db, auth, op, ids, key);
    }
  }

  lemma ForeignPaired(s: Schema, db: Db, plain: Db, auth: nat, op: Op, owner: nat, search: nat, ids: set<nat>, own: seq<Row>)
    requires Paired(s, db, plain, owner, search, ids, own) && Foreign(op, ids)
    ensures Paired(s, Exec(s, db, auth, op).db, Exec(s, plain, auth, op).db, owner, search, ids, own)
  {
    if op.Save? || op.Revert? {
      SweepPaired(s, db, plain, auth, op, owner, search, ids, own);
    } else {
      hide Part, AddEach, AddOne, RevertEach, SaveEach, Worth;
      match op
      case AddMicro(order, sku, quantity) =>
      case AddGame(item) => AddOnePaired(s, db, plain, auth, item, 0, owner, search, ids, own);
      case AddMulti(parent, items) =>
        PartMembers(db.log, ids, false);
        AddEachPaired(s, db, plain, auth, items, parent, owner, search, ids, own);
      case _ =>
    }
  }

  // --- saves and reverts of the order --------------------------------------

  /** What saves and reverts of its ids leave of an order's rows. */
  function Kept(own: seq<Row>, tasks: seq<Task>, ids: set<nat>): seq<Row> {
    if tasks == [] then own
    else
      var t, before := tasks[|tasks| - 1], Kept(own, tasks[..|tasks| - 1], ids);
      if Names(t.op, ids) then Swept(before, t.auth, t.op.search, t.op.Save?) else before
  }

  lemma NamesExceeds(s: Schema, db: Db, plain: Db, auth: nat, op: Op, ids: set<nat>, own: seq<Row>, own': seq<Row>)
    requires HasRows(db.inv, db.log) && (op.Save? || op.Revert?)
    requires Exceeds(db.inv, plain.inv, s.fallback, own) && (s.fallback == Yes ==> own' == own)
    requires var done := Exec(s, db, auth, op).db;
             && Part(db.log, ids, true) == own && Part(done.log, ids, true) == own'
             && Part(done.log, ids, false) == Part(db.log, ids, false)
    ensures Exceeds(Exec(s, db, auth, op).db.inv, plain.inv, s.fallback, own')
  {
    hide Exec, Part, LogSum, HasRows, Get;
    forall key ensures Get(Exec(s, db, auth, op).db.inv, key) ==
      Plus(Get(plain.inv, key), Worth(s.fallback, own', key).granted, Worth(s.fallback, own', key).claimed, Worth(s.fallback, own', key).saved)
    {
      SweepTotal(s, db, auth, op, ids, key);
      assert Get(db.inv, key) ==
        Plus(Get(plain.inv, key), Worth(s.fallback, own, key).granted, Worth(s.fallback, own, key).claimed, Worth(s.fallback, own, key).saved);
    }
  }

  lemma NamesPaired(s: Schema, db: Db, plain: Db, auth: nat, op: Op, owner: nat, search: nat, ids: set<nat>, own: seq<Row>)
    requires Paired(s, db, plain, owner, search, ids, own) && Names(op, ids)
    ensures Paired(s, Exec(s, db, auth, op).db, plain, owner, search, ids, Swept(own, auth, op.search, op.Save?))
  {
    if s.fallback != No {
      SweepSpares(own, auth, op.search, op.Save?);
    }
    hide Exec, Part, LogSum, Held, HasRows, Swept, Matches, Exceeds;
    SweepLogs(s, db, auth, op, owner, search, ids);
    SweepKeepsPart(db.log, owner, search, ids, false, auth, op.search, op.Save?);
    NamesExceeds(s, db, plain, auth, op, ids, own, Swept(own, auth, op.search, op.Save?));
  }

  /** Tasks of all accounts run beside an order as without it; only its own saves and reverts move its rows. */
  lemma {:induction false} RunBeside(s: Schema, db: Db, plain: Db, tasks: seq<Task>, owner: nat, search: nat, ids: set<nat>, own: seq<Row>)
    requires Paired(s, db, plain, owner, search, ids, own) && forall t | t in tasks :: AddsOthers(t.op, ids)
    ensures Paired(s, Run(s, db, tasks), Run(s, plain, Apart(tasks, ids)), owner, search, ids, Kept(own, tasks, ids))
  {
    hide Exec, Paired, Swept, Foreign;
    if tasks != [] {
      var most, t := tasks[..|tasks| - 1], tasks[|tasks| - 1];
      RunBeside(s, db, plain, most, owner, search, ids, own);
      var with, without := Run(s, db, most), Run(s, plain, Apart(most, ids));
      assert Apart(most, ids) + [] == Apart(most, ids);
      if Names(t.op, ids) {
        NamesPaired(s, with, without, t.auth, t.op, owner, search, ids, Kept(own, most, ids));
      } else {
        assert (Apart(most, ids) + [t])[..|Apart(most, ids)|] == Apart(most, ids);
        ForeignPaired(s, with, without, t.auth, t.op, owner, search, ids, Kept(own, most, ids));
      }
    }
  }

  // --- the add -------------------------------------------------------------

  /** The task that adds the order, and the ids it uses. */
  predicate Opens(op: Op, search: nat, ids: set<nat>) {
    match op
    case AddGame(item) => item.order == search && ids == {search}
    case AddMulti(parent, items) => parent == search && ids == {search} + set i | i in items :: i.order
    case _ => false
  }

  predicate Fresh(log: seq<Row>, ids: set<nat>) {
    forall r | r in log :: r.order !in ids && r.parent !in ids
  }

  /** The rows an add writes where its ids are new. */
  function Written(s: Schema, auth: nat, items: seq<Item>, parent: nat): seq<Row> {
    if items == [] then []
    else
      var most, last := Written(s, auth, items[..|items| - 1], parent), items[|items| - 1];
      if Logged(most, last.order) then most else most + [RowOf(s, auth, last, parent)]
  }

  function Rows(s: Schema, auth: nat, op: Op): seq<Row> {
    match op
    case AddGame(item) => [RowOf(s, auth, item, 0)]
    case AddMulti(parent, items) => Written(s, auth, items, parent)
    case _ => []
  }

  lemma {:induction false} PartFresh(log: seq<Row>, ids: set<nat>)
    requires Fresh(log, ids)
    ensures Part(log, ids, false) == log && Part(log, ids, true) == []
  {
    if log != [] {
      assert log[|log| - 1] in log;
      PartFresh(log[..|log| - 1], ids);
    }
  }

  /** Books that have not seen the order. */
  lemma FreshPaired(s: Schema, db: Db, auth: nat, search: nat, ids: set<nat>)
    requires HasRows(db.inv, db.log) && Fresh(db.log, ids) && search in ids && 0 !in ids
    ensures Paired(s, db, db, auth, search, ids, [])
  {
    PartFresh(db.log, ids);
    hide Part;
  }

  lemma WorthLast(fallback: Bit, own: seq<Row>, r: Row, key: (nat, nat))
    requires r.saved == fallback
    ensures Worth(fallback, own + [r], key) ==
            if (r.auth, r.sku) == key then Plus(Worth(fallback, own, key), r.granted, r.claimed, 0) else Worth(fallback, own, key)
  {
    LogSumLast(own, r, key);
    hide LogSum;
  }

  lemma AddOneHeld(s: Schema, db: Db, plain: Db, auth: nat, item: Item, parent: nat, search: nat, ids: set<nat>, own: seq<Row>)
    requires Beside(db, plain, auth, search, ids, own) && item.order in ids
    requires (parent == 0 && item.order == search) || parent == search
    ensures var own' := if Logged(own, item.order) then own else own + [RowOf(s, auth, item, parent)];
            Beside(AddOne(s, db, auth, item, parent).db, plain, auth, search, ids, own')
    ensures Logged(db.log, item.order) <==> Logged(own, item.order)
  {
    var r := RowOf(s, auth, item, parent);
    PartMembers(db.log, ids, true);
    PartLast(db.log, r, ids, true);
    PartLast(db.log, r, ids, false);
    hide Part, Capped;
  }

  lemma AddOneExceeds(s: Schema, db: Db, plain: Db, auth: nat, item: Item, parent: nat, own: seq<Row>)
    requires Exceeds(db.inv, plain.inv, s.fallback, own) && !Logged(db.log, item.order)
    ensures Exceeds(AddOne(s, db, auth, item, parent).db.inv, plain.inv, s.fallback, own + [RowOf(s, auth, item, parent)])
  {
    var r := RowOf(s, auth, item, parent);
    hide Worth, Capped, Logged;
    forall key ensures Worth(s.fallback, own + [r], key) ==
      if (r.auth, r.sku) == key then Plus(Worth(s.fallback, own, key), r.granted, r.claimed, 0) else Worth(s.fallback, own, key)
    {
      WorthLast(s.fallback, own, r, key);
    }
  }

  lemma AddOneOpens(s: Schema, db: Db, plain: Db, auth: nat, item: Item, parent: nat, search: nat, ids: set<nat>, own: seq<Row>)
    requires Paired(s, db, plain, auth, search, ids, own) && item.order in ids
    requires (parent == 0 && item.order == search) || parent == search
    ensures var own' := if Logged(own, item.order) then own else own + [RowOf(s, auth, item, parent)];
            Paired(s, AddOne(s, db, auth, item, parent).db, plain, auth, search, ids, own')
  {
    AddOneHeld(s, db, plain, auth, item, parent, search, ids, own);
    if !Logged(own, item.order) {
      AddOneExceeds(s, db, plain, auth, item, parent, own);
    }
    hide Beside, Capped, Logged, Exceeds;
  }

  lemma {:induction false} AddEachOpens(s: Schema, db: Db, plain: Db, auth: nat, items: seq<Item>, search: nat, ids: set<nat>)
    requires Paired(s, db, plain, auth, search, ids, []) && forall i | i in items :: i.order in ids
    ensures Paired(s, AddEach(s, db, auth, items, search).db, plain, auth, search, ids, Written(s, auth, items, search))
  {
    hide AddOne, Paired, RowOf;
    if items != [] {
      var most, last := items[..|items| - 1], items[|items| - 1];
      assert last in items;
      AddEachOpens(s, db, plain, auth, most, search, ids);
      AddOneOpens(s, AddEach(s, db, auth, most, search).db, plain, auth, last, search, search, ids, Written(s, auth, most, search));
    }
  }

  /** On books that have not seen it an add puts its rows, and nothing else, beside what there was. */
  lemma AddOpens(s: Schema, db: Db, plain: Db, auth: nat, op: Op, search: nat, ids: set<nat>)
    requires Opens(op, search, ids) && Paired(s, db, plain, auth, search, ids, [])
    ensures Paired(s, Exec(s, db, auth, op).db, plain, auth, search, ids, Rows(s, auth, op))
  {
    match op
    case AddGame(item) =>
      AddOneOpens(s, db, plain, auth, item, 0, search, ids, []);
      assert [] + [RowOf(s, auth, item, 0)] == [RowOf(s, auth, item, 0)];
    case AddMulti(parent, items) =>
      PartMembers(db.log, ids, true);
      AddEachOpens(s, db, plain, auth, items, search, ids);
  }

  // --- what becomes of a row -----------------------------------------------

  /** A save or revert, by its account, of a row or of the order it is filed under. */
  predicate Touches(t: Task, r: Row) {
    (t.op.Save? || t.op.Revert?) && t.auth == r.auth && Belongs(r, t.op.search)
  }

  ghost predicate Reverted(r: Row, tasks: seq<Task>) {
    exists k :: 0 <= k < |tasks| && tasks[k].op.Revert? && Touches(tasks[k], r)
  }

  /** The row is saved, and not reverted before. */
  ghost predicate SavedFirst(r: Row, tasks: seq<Task>) {
    exists k :: 0 <= k < |tasks| && tasks[k].op.Save? && Touches(tasks[k], r) && !Reverted(r, tasks[..k])
  }

  /** What is left of a row that was not marked as saved. */
  ghost function Fate(r: Row, tasks: seq<Task>): seq<Row> {
    if SavedFirst(r, tasks) then [r.(saved := Yes)] else if Reverted(r, tasks) then [] else [r]
  }

  ghost function Left(rows: seq<Row>, tasks: seq<Task>): seq<Row> {
    if rows == [] then [] else Left(rows[..|rows| - 1], tasks) + Fate(rows[|rows| - 1], tasks)
  }

  lemma RevertedLast(r: Row, tasks: seq<Task>, t: Task)
    ensures Reverted(r, tasks + [t]) <==> Reverted(r, tasks) || (t.op.Revert? && Touches(t, r))
  {
    var all := tasks + [t];
    assert all[|tasks|] == t;
    if k :| 0 <= k < |tasks| && tasks[k].op.Revert? && Touches(tasks[k], r) {
      assert all[k] == tasks[k];
    }
  }

  lemma SavedFirstLast(r: Row, tasks: seq<Task>, t: Task)
    ensures SavedFirst(r, tasks + [t]) <==>
            SavedFirst(r, tasks) || (t.op.Save? && Touches(t, r) && !Reverted(r, tasks))
  {
    var all := tasks + [t];
    assert all[|tasks|] == t && all[..|tasks|] == tasks;
    hide Reverted, Touches;
    assert forall k | 0 <= k < |tasks| :: all[k] == tasks[k] && all[..k] == tasks[..k];
  }

  lemma SweptOne(r: Row, auth: nat, search: nat, saving: bool)
    ensures Swept([r], auth, search, saving) ==
            if !Matches(r, auth, search) then [r] else if saving then [r.(saved := Yes)] else []
    ensures Swept([], auth, search, saving) == []
  {
    assert [] + [r] == [r];
    SweptLast([], r, auth, search, saving);
  }

  /** The fate of one row, one task on. */
  lemma FateLast(r: Row, tasks: seq<Task>, t: Task)
    requires r.saved == No
    ensures Fate(r, tasks + [t]) ==
            if t.op.Save? || t.op.Revert? then Swept(Fate(r, tasks), t.auth, t.op.search, t.op.Save?) else Fate(r, tasks)
  {
    hide Swept, Reverted, SavedFirst;
    RevertedLast(r, tasks, t);
    SavedFirstLast(r, tasks, t);
    if t.op.Save? || t.op.Revert? {
      SweptOne(r, t.auth, t.op.search, t.op.Save?);
      SweptOne(r.(saved := Yes), t.auth, t.op.search, t.op.Save?);
    }
  }

  lemma {:induction false} SweptConcat(a: seq<Row>, b: seq<Row>, auth: nat, search: nat, saving: bool)
    ensures Swept(a + b, auth, search, saving) == Swept(a, auth, search, saving) + Swept(b, auth, search, saving)
  {
    if b == [] {
      assert a + b == a;
    } else {
      SweptConcat(a, b[..|b| - 1], auth, search, saving);
      assert (a + b)[..|a + b| - 1] == a + b[..|b| - 1];
    }
  }

  lemma {:induction false} LeftLast(rows: seq<Row>, tasks: seq<Task>, t: Task)
    requires forall r | r in rows :: r.saved == No
    ensures Left(rows, tasks + [t]) ==
            if t.op.Save? || t.op.Revert? then Swept(Left(rows, tasks), t.auth, t.op.search, t.op.Save?) else Left(rows, tasks)
  {
    hide Fate, Swept;
    if rows != [] {
      var most, r := rows[..|rows| - 1], rows[|rows| - 1];
      assert r in rows;
      LeftLast(most, tasks, t);
      FateLast(r, tasks, t);
      if t.op.Save? || t.op.Revert? {
        SweptConcat(Left(most, tasks), Fate(r, tasks), t.auth, t.op.search, t.op.Save?);
      }
    } else if t.op.Save? || t.op.Revert? {
      SweepSpares([], t.auth, t.op.search, t.op.Save?);
    }
  }

  /** Every row left is one of the rows, perhaps marked as saved. */
  lemma {:induction false} LeftOf(rows: seq<Row>, tasks: seq<Task>)
    ensures forall r | r in Left(rows, tasks) :: exists q :: q in rows && (r == q || r == q.(saved := Yes))
  {
    if rows != [] {
      var most, last := rows[..|rows| - 1], rows[|rows| - 1];
      LeftOf(most, tasks);
      assert rows == most + [last];
      forall r | r in Left(rows, tasks) ensures exists q :: q in rows && (r == q || r == q.(saved := Yes)) {
        if r in Left(most, tasks) {
          var q :| q in most && (r == q || r == q.(saved := Yes));
          assert q in rows;
        } else {
          assert last in rows;
        }
      }
    }
  }

  /** The rows are those of the order with these ids. */
  ghost predicate RowsOf(rows: seq<Row>, auth: nat, search: nat, ids: set<nat>) {
    && search in ids && 0 !in ids
    && forall r | r in rows :: r.order in ids && r.auth == auth && Belongs(r, search) && (r.parent == 0 || r.parent == search)
  }

  /** Of rows that come marked as not saved, the saves and reverts leave what becomes of each. */
  lemma {:induction false} KeptIsLeft(rows: seq<Row>, tasks: seq<Task>, auth: nat, search: nat, ids: set<nat>)
    requires RowsOf(rows, auth, search, ids) && forall r | r in rows :: r.saved == No
    ensures Kept(rows, tasks, ids) == Left(rows, tasks)
  {
    if tasks == [] {
      LeftNone(rows);
    } else {
      var most, t := tasks[..|tasks| - 1], tasks[|tasks| - 1];
      assert tasks == most + [t];
      KeptIsLeft(rows, most, auth, search, ids);
      LeftLast(rows, most, t);
      if (t.op.Save? || t.op.Revert?) && !Names(t.op, ids) {
        LeftOf(rows, most);
        SweepSpares(Left(rows, most), t.auth, t.op.search, t.op.Save?);
      }
    }
  }

  lemma {:induction false} LeftNone(rows: seq<Row>)
    ensures Left(rows, []) == rows
  {
    if rows != [] {
      LeftNone(rows[..|rows| - 1]);
    }
  }

  /** Rows that do not come marked as not saved are out of reach. */
  lemma {:induction false} KeptSpares(rows: seq<Row>, tasks: seq<Task>, ids: set<nat>)
    requires forall r | r in rows :: r.saved != No
    ensures Kept(rows, tasks, ids) == rows
  {
    if tasks != [] {
      var t := tasks[|tasks| - 1];
      KeptSpares(rows, tasks[..|tasks| - 1], ids);
      if Names(t.op, ids) {
        SweepSpares(rows, t.auth, t.op.search, t.op.Save?);
      }
    }
  }

  lemma {:induction false} WrittenRows(s: Schema, auth: nat, items: seq<Item>, search: nat, ids: set<nat>)
    requires search in ids && 0 !in ids && forall i | i in items :: i.order in ids
    ensures RowsOf(Written(s, auth, items, search), auth, search, ids)
    ensures forall r | r in Written(s, auth, items, search) :: r.saved == s.fallback
  {
    if items != [] {
      assert items[|items| - 1] in items;
      WrittenRows(s, auth, items[..|items| - 1], search, ids);
    }
  }

  lemma RowsAre(s: Schema, auth: nat, op: Op, search: nat, ids: set<nat>)
    requires Opens(op, search, ids) && 0 !in ids
    ensures RowsOf(Rows(s, auth, op), auth, search, ids)
    ensures forall r | r in Rows(s, auth, op) :: r.saved == s.fallback
  {
    if op.AddMulti? {
      WrittenRows(s, auth, op.items, search, ids);
    }
  }

  /** What an order leaves after its add and the tasks that follow. */
  ghost function Leftover(s: Schema, auth: nat, op: Op, tasks: seq<Task>): seq<Row> {
    if s.fallback == No then Left(Rows(s, auth, op), tasks) else Rows(s, auth, op)
  }

  /** After an order's add, whatever else runs, for whatever accounts: the books are those without
      the order, and beside them its leftover rows and what they are worth. */
  lemma NetEffect(s: Schema, db: Db, plain: Db, auth: nat, op: Op, tasks: seq<Task>, search: nat, ids: set<nat>)
    requires Opens(op, search, ids) && Paired(s, db, plain, auth, search, ids, [])
    requires forall t | t in tasks :: AddsOthers(t.op, ids)
    ensures Paired(s, Run(s, Exec(s, db, auth, op).db, tasks), Run(s, plain, Apart(tasks, ids)), auth, search, ids,
                   Leftover(s, auth, op, tasks))
  {
    hide Exec, Run, Rows, Kept, Left, Apart, AddsOthers;
    AddOpens(s, db, plain, auth, op, search, ids);
    RowsAre(s, auth, op, search, ids);
    hide Paired, Opens;
    RunBeside(s, Exec(s, db, auth, op).db, plain, tasks, auth, search, ids, Rows(s, auth, op));
    if s.fallback == No {
      KeptIsLeft(Rows(s, auth, op), tasks, auth, search, ids);
    } else {
      KeptSpares(Rows(s, auth, op), tasks, ids);
    }
  }

  // --- when nothing is left ------------------------------------------------

  ghost predicate SameTotals(a: Db, b: Db) {
    forall key :: Get(a.inv, key) == Get(b.inv, key)
  }

  lemma {:induction false} PartWhole(log: seq<Row>, ids: set<nat>)
    requires Part(log, ids, true) == []
    ensures Part(log, ids, false) == log
  {
    if log != [] {
      PartWhole(log[..|log| - 1], ids);
    }
  }

  /** The logs agree where no row is left, the totals where the rows left are worth nothing. */
  lemma PairedAgree(s: Schema, db: Db, plain: Db, auth: nat, search: nat, ids: set<nat>, own: seq<Row>)
    requires Paired(s, db, plain, auth, search, ids, own)
    ensures db.mtx == plain.mtx
    ensures db.log == plain.log <==> own == []
    ensures SameTotals(db, plain) <==> Worthless(s.fallback, own)
  {
    PartMembers(db.log, ids, true);
    PartMembers(db.log, ids, false);
    if own == [] {
      PartWhole(db.log, ids);
    } else {
      assert own[0] in own;
    }
    hide Part, Held, HasRows, Worth, Get;
    if SameTotals(db, plain) {
      forall key ensures Worth(s.fallback, own, key) == Totals(0, 0, 0) {
        assert Get(db.inv, key) == Get(plain.inv, key);
      }
    }
    if Worthless(s.fallback, own) {
      forall key ensures Get(db.inv, key) == Get(plain.inv, key) {
        assert Worth(s.fallback, own, key) == Totals(0, 0, 0);
      }
    }
  }

  lemma {:induction false} LeftEmptyIff(rows: seq<Row>, tasks: seq<Task>)
    ensures Left(rows, tasks) == [] <==> forall r | r in rows :: Reverted(r, tasks) && !SavedFirst(r, tasks)
  {
    hide Reverted, SavedFirst;
    if rows != [] {
      var most, last := rows[..|rows| - 1], rows[|rows| - 1];
      LeftEmptyIff(most, tasks);
      assert rows == most + [last];
    }
  }

  lemma AllReverted(rows: seq<Row>, tasks: seq<Task>, auth: nat, search: nat, ids: set<nat>)
    requires RowsOf(rows, auth, search, ids) && Task(auth, Revert(search)) in tasks
    ensures forall r | r in rows :: Reverted(r, tasks)
  {
    var k :| 0 <= k < |tasks| && tasks[k] == Task(auth, Revert(search));
    assert tasks[k].op.Revert?;
  }

  lemma SingleWorth(s: Schema, auth: nat, item: Item, saved: bool)
    ensures var r := RowOf(s, auth, item, 0);
            Worthless(s.fallback, [if saved then r.(saved := Yes) else r]) <==> Capped(s, item) == 0 && item.claimed == 0
  {
    var r := RowOf(s, auth, item, 0);
    var row := if saved then r.(saved := Yes) else r;
    hide Capped;
    assert [] + [row] == [row];
    forall key ensures LogSum([row], key) == if (auth, item.sku) == key then
      Totals(r.granted, r.claimed, if row.saved == Yes && r.claimed > 0 then r.claimed else 0) else Totals(0, 0, 0)
    {
      LogSumLast([], row, key);
    }
    hide LogSum;
    assert Worth(s.fallback, [row], (auth, item.sku)).granted == r.granted;
  }

  /** An order that has been added and, at some time after, reverted as a whole, among any tasks of
      any accounts: its rows are gone exactly if new rows come marked as not saved and no row was
      saved before it was reverted; the totals are those without it exactly if what is left is worth nothing. */
  lemma RevertCancelsIff(s: Schema, db: Db, auth: nat, op: Op, tasks: seq<Task>, search: nat, ids: set<nat>)
    requires HasRows(db.inv, db.log) && Fresh(db.log, ids) && Opens(op, search, ids) && 0 !in ids
    requires (forall t | t in tasks :: AddsOthers(t.op, ids)) && Task(auth, Revert(search)) in tasks
    ensures var with, plain := Run(s, Exec(s, db, auth, op).db, tasks), Run(s, db, Apart(tasks, ids));
            && with.mtx == plain.mtx
            && (with.log == plain.log <==>
                Rows(s, auth, op) == [] || (s.fallback == No && forall r | r in Rows(s, auth, op) :: !SavedFirst(r, tasks)))
            && (SameTotals(with, plain) <==> Worthless(s.fallback, Leftover(s, auth, op, tasks)))
  {
    assert search in ids;
    RowsAre(s, auth, op, search, ids);
    hide *;
    FreshPaired(s, db, auth, search, ids);
    NetEffect(s, db, db, auth, op, tasks, search, ids);
    PairedAgree(s, Run(s, Exec(s, db, auth, op).db, tasks), Run(s, db, Apart(tasks, ids)), auth, search, ids, Leftover(s, auth, op, tasks));
    AllReverted(Rows(s, auth, op), tasks, auth, search, ids);
    LeftEmptyIff(Rows(s, auth, op), tasks);
    LeftoverIs(s, auth, op, tasks);
  }

  lemma LeftoverIs(s: Schema, auth: nat, op: Op, tasks: seq<Task>)
    ensures Leftover(s, auth, op, tasks) == if s.fallback == No then Left(Rows(s, auth, op), tasks) else Rows(s, auth, op)
  {
  }

  /** For a single order: exactly if new rows come marked as not saved and it was not saved first,
      or the order moved nothing. */
  lemma SingleCancelsIff(s: Schema, auth: nat, item: Item, tasks: seq<Task>)
    requires item.order != 0 && Task(auth, Revert(item.order)) in tasks
    ensures Worthless(s.fallback, Leftover(s, auth, AddGame(item), tasks)) <==>
            (s.fallback == No && !SavedFirst(RowOf(s, auth, item, 0), tasks)) || (Capped(s, item) == 0 && item.claimed == 0)
  {
    var r := RowOf(s, auth, item, 0);
    hide RowOf, Capped;
    RowsAre(s, auth, AddGame(item), item.order, {item.order});
    AllReverted([r], tasks, auth, item.order, {item.order});
    SingleWorth(s, auth, item, false);
    SingleWorth(s, auth, item, true);
    hide Worth, Reverted, SavedFirst;
    assert [r][..0] == [];
    assert Left([], tasks) == [];
    assert Left([r], tasks) == Fate(r, tasks);
    NothingWorthless(s.fallback);
  }

  lemma NothingWorthless(fallback: Bit)
    ensures Worthless(fallback, [])
  {
  }

  /** The order is saved as a whole before it is reverted as a whole. */
  ghost predicate SavedBefore(tasks: seq<Task>, auth: nat, search: nat) {
    exists k :: 0 <= k < |tasks| && tasks[k] == Task(auth, Save(search)) && Task(auth, Revert(search)) !in tasks[..k]
  }

  function Marked(rows: seq<Row>): seq<Row> {
    if rows == [] then [] else Marked(rows[..|rows| - 1]) + [rows[|rows| - 1].(saved := Yes)]
  }

  /** The account's saves and reverts name the order as a whole. */
  ghost predicate AsWhole(tasks: seq<Task>, auth: nat, search: nat, ids: set<nat>) {
    forall t | t in tasks && Names(t.op, ids) && t.auth == auth :: t.op.search == search
  }

  lemma SavedFirstWhole(r: Row, tasks: seq<Task>, auth: nat, search: nat, ids: set<nat>)
    requires RowsOf([r], auth, search, ids) && AsWhole(tasks, auth, search, ids)
    ensures SavedFirst(r, tasks) <==> SavedBefore(tasks, auth, search)
  {
    assert r in [r];
    assert forall t | t in tasks && Touches(t, r) :: t.op.search in ids;
    assert forall k | 0 <= k < |tasks| :: tasks[k] in tasks;
    forall k | 0 <= k <= |tasks| ensures Reverted(r, tasks[..k]) <==> Task(auth, Revert(search)) in tasks[..k] {
      if j :| 0 <= j < k && tasks[j] == Task(auth, Revert(search)) {
        assert tasks[..k][j].op.Revert? && Touches(tasks[..k][j], r);
      }
    }
    hide Reverted;
  }

  lemma {:induction false} LeftWhole(rows: seq<Row>, tasks: seq<Task>, auth: nat, search: nat, ids: set<nat>)
    requires RowsOf(rows, auth, search, ids) && AsWhole(tasks, auth, search, ids) && Task(auth, Revert(search)) in tasks
    ensures Left(rows, tasks) == if SavedBefore(tasks, auth, search) then Marked(rows) else []
  {
    if rows != [] {
      var most, last := rows[..|rows| - 1], rows[|rows| - 1];
      assert last in rows;
      LeftWhole(most, tasks, auth, search, ids);
      SavedFirstWhole(last, tasks, auth, search, ids);
      AllReverted([last], tasks, auth, search, ids);
      assert last in [last];
      hide SavedFirst, SavedBefore, Reverted, AsWhole;
    }
  }

  /** An order saved and reverted as a whole, single or multi: exactly if it was not saved first, or is worth nothing when saved. */
  lemma WholeCancelsIff(s: Schema, auth: nat, op: Op, tasks: seq<Task>, search: nat, ids: set<nat>)
    requires s.fallback == No && Opens(op, search, ids) && 0 !in ids
    requires AsWhole(tasks, auth, search, ids) && Task(auth, Revert(search)) in tasks
    ensures Leftover(s, auth, op, tasks) == [] <==> !SavedBefore(tasks, auth, search) || Rows(s, auth, op) == []
    ensures Worthless(s.fallback, Leftover(s, auth, op, tasks)) <==>
            !SavedBefore(tasks, auth, search) || Worthless(No, Marked(Rows(s, auth, op)))
  {
    RowsAre(s, auth, op, search, ids);
    LeftWhole(Rows(s, auth, op), tasks, auth, search, ids);
    NothingWorthless(s.fallback);
    hide Rows, Left, SavedBefore, AsWhole, Opens, Worth, Worthless;
  }

  /** Without a save before it a revert cancels: logs and totals are as if the order had never been. */
  lemma RevertCancels(s: Schema, db: Db, auth: nat, op: Op, tasks: seq<Task>, search: nat, ids: set<nat>)
    requires HasRows(db.inv, db.log) && Fresh(db.log, ids) && Opens(op, search, ids) && 0 !in ids && s.fallback == No
    requires (forall t | t in tasks :: AddsOthers(t.op, ids)) && Task(auth, Revert(search)) in tasks
    requires forall r | r in Rows(s, auth, op) :: !SavedFirst(r, tasks)
    ensures var with, plain := Run(s, Exec(s, db, auth, op).db, tasks), Run(s, db, Apart(tasks, ids));
            with.log == plain.log && with.mtx == plain.mtx && SameTotals(with, plain)
  {
    assert search in ids;
    RowsAre(s, auth, op, search, ids);
    hide *;
    RevertCancelsIff(s, db, auth, op, tasks, search, ids);
    AllReverted(Rows(s, auth, op), tasks, auth, search, ids);
    LeftEmptyIff(Rows(s, auth, op), tasks);
    LeftoverIs(s, auth, op, tasks);
    NothingWorthless(s.fallback);
  }

  // ---------------------------------------------------------------------
  //  What a task reports, and what later tasks cannot undo
  // ---------------------------------------------------------------------

  /** The inventory rows of one account. */
  function View(db: Db, auth: nat): map<nat, Totals> {
    map sku | sku in (set key | key in db.inv && key.0 == auth :: key.1) && (auth, sku) in db.inv :: db.inv[(auth, sku)]
  }

  function Overlay(cache: map<nat, Totals>, rows: seq<InvRow>): map<nat, Totals> {
    if rows == [] then cache
    else Overlay(cache, rows[..|rows| - 1])[rows[|rows| - 1].sku := rows[|rows| - 1].totals]
  }

  lemma {:induction false} OverlayConcat(cache: map<nat, Totals>, a: seq<InvRow>, b: seq<InvRow>)
    ensures Overlay(cache, a + b) == Overlay(Overlay(cache, a), b)
  {
    if b == [] {
      assert a + b == a;
    } else {
      OverlayConcat(cache, a, b[..|b| - 1]);
      assert (a + b)[..|a + b| - 1] == a + b[..|b| - 1];
    }
  }

  /** The step touched no more than the totals of one product of the account, and reported them. */
  ghost predicate Reports(db: Db, auth: nat, done: Result) {
    && Overlay(View(db, auth), done.rows) == View(done.db, auth)
    && forall other | other != auth :: View(done.db, other) == View(db, other)
  }

  /** Only the totals of one product of an account differ, and none was lost. */
  ghost predicate OneMoved(inv: map<(nat, nat), Totals>, inv': map<(nat, nat), Totals>, at: (nat, nat)) {
    && (forall key | key != at :: (key in inv <==> key in inv') && (key in inv ==> inv[key] == inv'[key]))
    && (at in inv ==> at in inv')
  }

  lemma OthersUnmoved(db: Db, db': Db, at: (nat, nat), other: nat)
    requires OneMoved(db.inv, db'.inv, at) && other != at.0
    ensures View(db', other) == View(db, other)
  {
    assert forall s | s in View(db', other) :: (other, s) in db'.inv;
  }

  lemma ProductMoved(db: Db, db': Db, auth: nat, sku: nat)
    requires OneMoved(db.inv, db'.inv, (auth, sku))
    ensures View(db', auth) == if (auth, sku) in db'.inv then View(db, auth)[sku := db'.inv[(auth, sku)]] else View(db, auth)
  {
    assert forall s | s in View(db', auth) :: (auth, s) in db'.inv;
    assert forall s | s in View(db, auth) :: (auth, s) in db.inv;
  }

  lemma OneReports(db: Db, auth: nat, sku: nat, db': Db)
    requires OneMoved(db.inv, db'.inv, (auth, sku))
    ensures Reports(db, auth, Result(db', Reported(db', auth, sku)))
  {
    hide View, OneMoved;
    forall other | other != auth ensures View(db', other) == View(db, other) {
      OthersUnmoved(db, db', (auth, sku), other);
    }
    ProductMoved(db, db', auth, sku);
    var rows := Reported(db', auth, sku);
    if (auth, sku) in db'.inv {
      assert rows[..0] == [] && rows[0] == InvRow(sku, db'.inv[(auth, sku)]);
      assert Overlay(View(db, auth), rows) == Overlay(View(db, auth), [])[sku := rows[0].totals];
    }
  }

  lemma ReportsThen(db: Db, auth: nat, first: Result, last: Result)
    requires Reports(db, auth, first) && Reports(first.db, auth, last)
    ensures Reports(db, auth, Result(last.db, first.rows + last.rows))
  {
    OverlayConcat(View(db, auth), first.rows, last.rows);
    hide View, Overlay;
  }

  lemma {:induction false} AddEachReports(s: Schema, db: Db, auth: nat, items: seq<Item>, parent: nat)
    ensures Reports(db, auth, AddEach(s, db, auth, items, parent))
  {
    if items != [] {
      AddEachReports(s, db, auth, items[..|items| - 1], parent);
      var first := AddEach(s, db, auth, items[..|items| - 1], parent);
      var item := items[|items| - 1];
      AddOneReports(s, first.db, auth, item, parent);
      hide Reports;
      ReportsThen(db, auth, first, AddOne(s, first.db, auth, item, parent));
    }
  }

  lemma RowReports(db: Db, r: Row, auth: nat, search: nat)
    ensures Reports(db, auth, RevertRow(db, r, auth, search))
    ensures Reports(db, auth, SaveRow(db, r, auth, search))
  {
    OneReports(db, auth, r.sku, RevertRow(db, r, auth, search).db);
    OneReports(db, auth, r.sku, SaveRow(db, r, auth, search).db);
    if !Matches(r, auth, search) {
      assert View(db.(log := db.log + [r]), auth) == View(db, auth);
    }
  }

  lemma {:induction false} EachReports(db: Db, log: seq<Row>, auth: nat, search: nat)
    ensures Reports(db, auth, RevertEach(db, log, auth, search))
    ensures Reports(db, auth, SaveEach(db, log, auth, search))
  {
    if log != [] {
      var most, r := log[..|log| - 1], log[|log| - 1];
      EachReports(db, most, auth, search);
      hide Reports;
      var reverted, saved := RevertEach(db, most, auth, search), SaveEach(db, most, auth, search);
      RowReports(reverted.db, r, auth, search);
      RowReports(saved.db, r, auth, search);
      ReportsThen(db, auth, reverted, RevertRow(reverted.db, r, auth, search));
      ReportsThen(db, auth, saved, SaveRow(saved.db, r, auth, search));
    }
  }

  /** A successful task reports the new totals of everything it changed, and changes nothing
      of another account: its rows, laid over the old view, give the new one. */
  lemma BuyReports(db: Db, auth: nat, order: nat, sku: nat, quantity: int)
    ensures Reports(db, auth, Buy(db, auth, order, sku, quantity))
  {
    OneReports(db, auth, sku, Buy(db, auth, order, sku, quantity).db);
    hide Reports, Bought;
  }

  lemma AddOneReports(s: Schema, db: Db, auth: nat, item: Item, parent: nat)
    ensures Reports(db, auth, AddOne(s, db, auth, item, parent))
  {
    hide Logged, Capped;
    OneReports(db, auth, item.sku, AddOne(s, db, auth, item, parent).db);
    hide Reports;
  }

  lemma NothingReports(db: Db, auth: nat)
    ensures Reports(db, auth, Result(db, []))
  {
  }

  lemma ExecReports(s: Schema, db: Db, auth: nat, op: Op)
    ensures Reports(db, auth, Exec(s, db, auth, op))
  {
    hide Reports, RevertEach, SaveEach, AddEach, AddOne, Buy;
    match op
    case AddMicro(order, sku, quantity) => BuyReports(db, auth, order, sku, quantity);
    case AddGame(item) => AddOneReports(s, db, auth, item, 0);
    case AddMulti(parent, items) => AddEachReports(s, db, auth, items, parent); NothingReports(db, auth);
    case Save(search) => EachReports(db, db.log, auth, search);
    case Revert(search) => EachReports(db, db.log, auth, search);
  }

  lemma {:induction false} AddEachLogs(s: Schema, db: Db, auth: nat, items: seq<Item>, parent: nat)
    ensures forall r | r in db.log :: r in AddEach(s, db, auth, items, parent).db.log
    ensures forall i | i in items :: Logged(AddEach(s, db, auth, items, parent).db.log, i.order)
  {
    if items != [] {
      var most, item := items[..|items| - 1], items[|items| - 1];
      AddEachLogs(s, db, auth, most, parent);
      assert items == most + [item];
      var first := AddEach(s, db, auth, most, parent).db;
      var db' := AddOne(s, first, auth, item, parent).db;
      if !Logged(first.log, item.order) {
        assert RowOf(s, auth, item, parent) in db'.log;
      }
    }
  }

  lemma {:induction false} AddEachAgain(s: Schema, db: Db, auth: nat, items: seq<Item>, parent: nat)
    requires forall i | i in items :: Logged(db.log, i.order)
    ensures AddEach(s, db, auth, items, parent).db == db
  {
    if items != [] {
      AddEachAgain(s, db, auth, items[..|items| - 1], parent);
      assert items[|items| - 1] in items;
    }
  }

  /** An add that is executed again, as when its first answer was lost, changes nothing more. */
  lemma CountsOnce(s: Schema, db: Db, auth: nat, op: Op)
    requires !op.Save? && !op.Revert?
    ensures Exec(s, Exec(s, db, auth, op).db, auth, op).db == Exec(s, db, auth, op).db
  {
    var once := Exec(s, db, auth, op).db;
    match op
    case AddMicro(order, sku, quantity) =>
      if !Bought(db.mtx, order) { assert Purchase(order, auth, sku, quantity) in once.mtx; }
    case AddGame(item) =>
      if !Logged(db.log, item.order) { assert RowOf(s, auth, item, 0) in once.log; }
    case AddMulti(parent, items) =>
      AddEachLogs(s, db, auth, items, parent);
      if !(exists r | r in db.log :: r.parent != 0 && r.parent == parent) {
        AddEachAgain(s, once, auth, items, parent);
      }
  }

  lemma {:induction false} SweptKeepsSaved(log: seq<Row>, auth: nat, search: nat, saving: bool, r: Row)
    requires r in log && r.saved == Yes
    ensures r in Swept(log, auth, search, saving)
  {
    var most, last := log[..|log| - 1], log[|log| - 1];
    if r in most {
      SweptKeepsSaved(most, auth, search, saving, r);
    } else {
      assert r == last;
    }
  }

  /** An order that has been saved stays in the books: no later task of any account takes it back. */
  lemma {:induction false} SavedIsFinal(s: Schema, db: Db, tasks: seq<Task>, r: Row)
    requires r in db.log && r.saved == Yes
    ensures r in Run(s, db, tasks).log
  {
    if tasks != [] {
      SavedIsFinal(s, db, tasks[..|tasks| - 1], r);
      var before, t := Run(s, db, tasks[..|tasks| - 1]), tasks[|tasks| - 1];
      hide Run, RevertEach, SaveEach, AddEach;
      match t.op
      case AddMulti(parent, items) => AddEachLogs(s, before, t.auth, items, parent);
      case Save(search) =>
        EachSweeps(before, before.log, t.auth, search);
        SweptKeepsSaved(before.log, t.auth, search, true, r);
      case Revert(search) =>
        EachSweeps(before, before.log, t.auth, search);
        SweptKeepsSaved(before.log, t.auth, search, false, r);
      case _ =>
    }
  }
}

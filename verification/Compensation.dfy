/**
 The compensating revert in the order of the database: what a sequence of tasks of all
 accounts, one order's add, saves and reverts among them, does to the books.
 */
module Compensation {
  import opened OrderLedger

  /** An order under the eye: the account, the id it is searched by, its add and all its ids. */
  datatype Case = Case(auth: nat, search: nat, add: Op, ids: set<nat>)

  ghost predicate WellFormed(c: Case) {
    Opens(c.add, c.search, c.ids) && 0 !in c.ids
  }

  predicate IsAdd(c: Case, t: Task) {
    t == Task(c.auth, c.add)
  }

  predicate IsRevert(c: Case, t: Task) {
    t == Task(c.auth, Revert(c.search))
  }

  /** The tasks that have nothing to do with the order. */
  function Others(c: Case, trace: seq<Task>): seq<Task> {
    if trace == [] then []
    else
      var t := trace[|trace| - 1];
      Others(c, trace[..|trace| - 1]) + (if IsAdd(c, t) || Names(t.op, c.ids) then [] else [t])
  }

  /** Only the order's own add uses its ids for new rows; anyone may save or revert them. */
  ghost predicate Separate(c: Case, trace: seq<Task>) {
    forall t | t in trace :: IsAdd(c, t) || AddsOthers(t.op, c.ids)
  }

  /** The order is added once, and reverted only after that. */
  ghost predicate AddFirst(c: Case, trace: seq<Task>, i: nat) {
    && i < |trace| && IsAdd(c, trace[i])
    && (forall k | 0 <= k < |trace| && k != i :: !IsAdd(c, trace[k]))
    && (forall k | 0 <= k < i :: !IsRevert(c, trace[k]))
  }

  ghost predicate NotAdded(c: Case, trace: seq<Task>) {
    forall t | t in trace :: !IsAdd(c, t)
  }

  lemma {:induction false} OthersApart(c: Case, trace: seq<Task>)
    requires NotAdded(c, trace)
    ensures Others(c, trace) == Apart(trace, c.ids)
  {
    if trace != [] {
      assert trace[|trace| - 1] in trace;
      OthersApart(c, trace[..|trace| - 1]);
    }
  }

  lemma {:induction false} OthersConcat(c: Case, a: seq<Task>, b: seq<Task>)
    ensures Others(c, a + b) == Others(c, a) + Others(c, b)
  {
    if b == [] {
      assert a + b == a;
    } else {
      OthersConcat(c, a, b[..|b| - 1]);
      assert (a + b)[..|a + b| - 1] == a + b[..|b| - 1];
    }
  }

  lemma {:induction false} RunConcat(s: Schema, db: Db, a: seq<Task>, b: seq<Task>)
    ensures Run(s, db, a + b) == Run(s, Run(s, db, a), b)
  {
    hide Exec;
    if b == [] {
      assert a + b == a;
    } else {
      RunConcat(s, db, a, b[..|b| - 1]);
      assert (a + b)[..|a + b| - 1] == a + b[..|b| - 1];
    }
  }

  lemma RunOne(s: Schema, db: Db, t: Task)
    ensures Run(s, db, [t]) == Exec(s, db, t.auth, t.op).db
  {
    assert [t][..0] == [];
  }

  /** On books that know nothing of the order its saves and reverts change nothing. */
  lemma NeverAdded(s: Schema, db: Db, c: Case, trace: seq<Task>)
    requires WellFormed(c) && HasRows(db.inv, db.log) && Fresh(db.log, c.ids)
    requires Separate(c, trace) && NotAdded(c, trace)
    ensures Paired(s, Run(s, db, trace), Run(s, db, Others(c, trace)), c.auth, c.search, c.ids, [])
  {
    hide Run, Paired, Fresh, HasRows, AddsOthers;
    FreshPaired(s, db, c.auth, c.search, c.ids);
    RunBeside(s, db, db, trace, c.auth, c.search, c.ids, []);
    NothingKept(trace, c.ids);
    OthersApart(c, trace);
  }

  lemma {:induction false} NothingKept(tasks: seq<Task>, ids: set<nat>)
    ensures Kept([], tasks, ids) == []
  {
    if tasks != [] {
      NothingKept(tasks[..|tasks| - 1], ids);
    }
  }

  lemma OthersAround(c: Case, head: seq<Task>, add: Task, tail: seq<Task>)
    requires IsAdd(c, add) && NotAdded(c, tail)
    ensures Others(c, head + [add] + tail) == Others(c, head) + Apart(tail, c.ids)
  {
    assert Others(c, [add]) == [] by { assert [add][..0] == []; }
    hide Others;
    OthersConcat(c, head + [add], tail);
    OthersConcat(c, head, [add]);
    OthersApart(c, tail);
  }

  lemma AroundAdd(s: Schema, db: Db, c: Case, head: seq<Task>, tail: seq<Task>)
    requires WellFormed(c) && HasRows(db.inv, db.log) && Fresh(db.log, c.ids)
    requires Separate(c, head) && Separate(c, tail) && NotAdded(c, head) && NotAdded(c, tail)
    ensures var trace := head + [Task(c.auth, c.add)] + tail;
            Paired(s, Run(s, db, trace), Run(s, db, Others(c, trace)), c.auth, c.search, c.ids, Leftover(s, c.auth, c.add, tail))
  {
    var add := Task(c.auth, c.add);
    hide Run, Paired, Fresh, HasRows, AddsOthers, Exec, Others, Apart, Leftover;
    NeverAdded(s, db, c, head);
    var before, plain := Run(s, db, head), Run(s, db, Others(c, head));
    NetEffect(s, before, plain, c.auth, c.add, tail, c.search, c.ids);
    RunConcat(s, db, head + [add], tail);
    RunConcat(s, db, head, [add]);
    RunOne(s, before, add);
    OthersAround(c, head, add, tail);
    RunConcat(s, db, Others(c, head), Apart(tail, c.ids));
  }

  /** What an order adds to the books over any sequence of tasks: the leftover of its rows, and no more. */
  lemma NetOfTrace(s: Schema, db: Db, c: Case, trace: seq<Task>, i: nat)
    requires WellFormed(c) && HasRows(db.inv, db.log) && Fresh(db.log, c.ids)
    requires Separate(c, trace) && AddFirst(c, trace, i)
    ensures Paired(s, Run(s, db, trace), Run(s, db, Others(c, trace)), c.auth, c.search, c.ids,
                   Leftover(s, c.auth, c.add, trace[i + 1..]))
  {
    var head, tail := trace[..i], trace[i + 1..];
    assert trace == head + [Task(c.auth, c.add)] + tail;
    assert forall t | t in head :: t in trace;
    assert forall t | t in tail :: t in trace;
    hide Run, Paired, Fresh, HasRows, AddsOthers, Others, Leftover;
    AroundAdd(s, db, c, head, tail);
  }

  /** Once an order's add and, later, a revert of it have been carried out: no row of it is left exactly
      if new rows come marked as not saved and none was saved before it was reverted, and all
      totals are those without the order exactly if what is left is worth nothing. */
  lemma Compensated(s: Schema, db: Db, c: Case, trace: seq<Task>, i: nat, j: nat)
    requires WellFormed(c) && HasRows(db.inv, db.log) && Fresh(db.log, c.ids)
    requires Separate(c, trace) && AddFirst(c, trace, i) && i < j < |trace| && IsRevert(c, trace[j])
    ensures var with, plain, after := Run(s, db, trace), Run(s, db, Others(c, trace)), trace[i + 1..];
            && with.mtx == plain.mtx
            && (with.log == plain.log <==>
                Rows(s, c.auth, c.add) == [] || (s.fallback == No && forall r | r in Rows(s, c.auth, c.add) :: !SavedFirst(r, after)))
            && (SameTotals(with, plain) <==> Worthless(s.fallback, Leftover(s, c.auth, c.add, after)))
  {
    var after := trace[i + 1..];
    assert c.search in c.ids;
    assert after[j - i - 1] == Task(c.auth, Revert(c.search));
    RowsAre(s, c.auth, c.add, c.search, c.ids);
    NetOfTrace(s, db, c, trace, i);
    hide *;
    PairedAgree(s, Run(s, db, trace), Run(s, db, Others(c, trace)), c.auth, c.search, c.ids, Leftover(s, c.auth, c.add, after));
    AllReverted(Rows(s, c.auth, c.add), after, c.auth, c.search, c.ids);
    LeftEmptyIff(Rows(s, c.auth, c.add), after);
    LeftoverIs(s, c.auth, c.add, after);
  }
}

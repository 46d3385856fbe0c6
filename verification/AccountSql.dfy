/**
 The server's side of the SQL back end as the process keeps it: the in-flight count, the
 pool that is thawed while anything is in flight, the accounts, and the loops that take
 results.  Each method is proved to take exactly the steps of the machine in SqlPool, and
 so keeps everything proved there.
 */
module AccountSql {
  import opened Options
  import opened OrderLedger
  import opened SqlPool
  import opened FlexInventory

  datatype Turn = Turn(worker: nat, ok: bool)

  /** The results that wait at the workers. */
  function Results(ws: seq<Worker>): nat {
    if ws == [] then 0 else Results(ws[..|ws| - 1]) + |ws[|ws| - 1].done|
  }

  lemma {:induction false} ResultsSet(ws: seq<Worker>, i: nat, w: Worker)
    requires i < |ws|
    ensures Results(ws[i := w]) + |ws[i].done| == Results(ws) + |w.done|
  {
    var most := ws[..|ws| - 1];
    if i == |ws| - 1 {
      assert ws[i := w][..|ws| - 1] == most;
    } else {
      ResultsSet(most, i, w);
      assert ws[i := w][..|ws| - 1] == most[i := w];
    }
  }

  /** A server method takes these steps. */
  ghost predicate Takes(s: Schema, before: State, steps: seq<Step>, after: State) {
    |before.workers| == WORKERS && after == SqlPool.Run(s, before, steps)
  }

  lemma TakesNone(s: Schema, st: State)
    requires |st.workers| == WORKERS
    ensures Takes(s, st, [], st)
  {
  }

  lemma TakesMore(s: Schema, before: State, steps: seq<Step>, middle: State, e: Step)
    requires Takes(s, before, steps, middle)
    ensures |middle.workers| == WORKERS && Takes(s, before, steps + [e], Next(s, middle, e))
  {
    assert (steps + [e])[..|steps|] == steps;
  }

  lemma NextChange(s: Schema, st: State, a: nat, bits: nat, counters: nat)
    requires |st.workers| == WORKERS && a in st.accounts && st.accounts[a].loaded
    requires st.accounts[a].kept.bits <= bits && st.accounts[a].counters <= counters
    ensures Next(s, st, SqlPool.Change(a, bits, counters)) == st.(accounts := st.accounts[a :=
              st.accounts[a].(dirty := true, kept := st.accounts[a].kept.(bits := bits), counters := counters)])
  {
  }

  lemma NextCommit(s: Schema, st: State, a: nat)
    requires |st.workers| == WORKERS && a in st.accounts && st.accounts[a].dirty
    ensures var acc := st.accounts[a];
            Next(s, st, Commit(a)) == Push(st, Update(a, Current(acc))).(accounts := st.accounts[a := acc.(kept := Current(acc), dirty := false)])
  {
  }

  lemma GoodShape(st: State)
    requires Good(st)
    ensures AtHome(st) && |st.workers| == WORKERS
  {
  }

  /** The state in which a taken result is finished: it has left its worker and the count. */
  function Taken(st: State, i: nat): State
    requires i < |st.workers| && st.workers[i].done != [] && st.inFlight > 0
  {
    var w := st.workers[i];
    st.(workers := st.workers[i := w.(done := w.done[1..])], inFlight := st.inFlight - 1)
  }

  /** What finishing does, case by case. */
  lemma FinishCases(st: State, i: nat)
    requires |st.workers| == WORKERS && i < WORKERS && st.workers[i].done != [] && st.inFlight > 0
    requires var j := st.workers[i].done[0].job; j.Search? || j.auth in st.accounts
    ensures var d, mid := st.workers[i].done[0], Taken(st, i);
            FinishOne(st, i) ==
              if d.job.Search? then mid
              else if d.ok then mid.(accounts := mid.accounts[d.job.auth := Absorb(mid.accounts[d.job.auth], d)])
              else if d.job.Load? then Push(mid, d.job)
              else if d.job.Update? then Push(mid, Update(d.job.auth, mid.accounts[d.job.auth].kept))
              else mid
  {
    var d := st.workers[i].done[0];
    if !d.job.Search? && !d.ok {
      assert st.accounts[d.job.auth := st.accounts[d.job.auth]] == st.accounts;
    }
  }

  class AccountSql {
    const schema: Schema
    var workers: seq<Worker>
    var inFlight: nat
    var thawed: bool
    var accounts: map<nat, Account>
    var disk: Disk

    function State(): State
      reads this
    {
      SqlPool.State.State(workers, inFlight, accounts, disk)
    }

    ghost predicate Valid()
      reads this
    {
      Good(State()) && (thawed <==> inFlight > 0)
    }

    constructor (schema: Schema, disk: Disk)
      ensures Valid() && Start(State()) && this.schema == schema && this.disk == disk
    {
      this.schema, this.disk := schema, disk;
      workers := seq(WORKERS, i => Worker([], []));
      inFlight, thawed, accounts := 0, false, map[];
      new;
      RunGood(schema, State(), []);
    }

    /** Queues a job at the worker of its account; the first one thaws the pool. */
    method PushTask(j: Job)
      requires |workers| == WORKERS && (thawed <==> inFlight > 0)
      modifies `workers, `inFlight, `thawed
      ensures State() == Push(old(State()), j) && (thawed <==> inFlight > 0)
    {
      if inFlight == 0 {
        thawed := true;
      }
      inFlight := inFlight + 1;
      var w := workers[Home(j)];
      workers := workers[Home(j) := w.(todo := w.todo + [j])];
    }

    method LoadOrCreate(auth: nat)
      requires Valid() && auth != 0
      modifies this
      ensures Valid() && auth in accounts && State() == Next(schema, old(State()), Know(auth))
    {
      hide Good, Push, AtHome;
      ghost var st := State();
      GoodShape(st);
      NextGood(schema, st, Know(auth));
      if auth !in accounts {
        accounts := accounts[auth := Account(false, map[], false, Card(0, 0), 0)];
        assert State() == st.(accounts := accounts);
        PushTask(Load(auth));
      }
    }

    method Submit(auth: nat, op: Op)
      requires Valid() && auth in accounts
      modifies this
      ensures Valid() && State() == Next(schema, old(State()), SqlPool.Submit(auth, op))
    {
      ghost var st := State();
      assert |workers| == WORKERS;
      NextGood(schema, st, SqlPool.Submit(auth, op));
      hide Good, Push;
      PushTask(Order(auth, op));
    }

    /** A change of the account row: only a loaded account may be marked. */
    method Change(auth: nat, bits: nat, counters: nat)
      requires Valid() && auth in accounts && accounts[auth].loaded
      requires accounts[auth].kept.bits <= bits && accounts[auth].counters <= counters
      modifies `accounts
      ensures Valid() && State() == Next(schema, old(State()), SqlPool.Change(auth, bits, counters))
    {
      hide Good, Next, AtHome;
      ghost var st := State();
      GoodShape(st);
      NextGood(schema, st, SqlPool.Change(auth, bits, counters));
      NextChange(schema, st, auth, bits, counters);
      var acc := accounts[auth];
      accounts := accounts[auth := acc.(dirty := true, kept := acc.kept.(bits := bits), counters := counters)];
      assert State() == st.(accounts := accounts);
    }

    method CommitAsync(auth: nat)
      requires Valid() && auth in accounts && accounts[auth].dirty
      modifies this
      ensures Valid() && State() == Next(schema, old(State()), Commit(auth))
    {
      hide Good, Next, Push, AtHome;
      ghost var st := State();
      GoodShape(st);
      NextGood(schema, st, Commit(auth));
      NextCommit(schema, st, auth);
      var acc := accounts[auth];
      PushTask(Update(auth, Card(acc.kept.bits, acc.counters)));
      accounts := accounts[auth := acc.(kept := Card(acc.kept.bits, acc.counters), dirty := false)];
      assert State() == Push(st, Update(auth, Current(acc))).(accounts := accounts);
    }

    /** What a worker thread does on its own. */
    method WorkerTurn(turn: Turn)
      requires Valid() && turn.worker < WORKERS
      modifies this
      ensures Valid() && State() == Next(schema, old(State()), Execute(turn.worker, turn.ok))
    {
      NextGood(schema, State(), Execute(turn.worker, turn.ok));
      hide Good, AtHome;
      var w := workers[turn.worker];
      if w.todo != [] {
        var out := Carry(schema, disk, w.todo[0], turn.ok);
        workers := workers[turn.worker := Worker(w.todo[1..], w.done + [out.done])];
        disk := out.disk;
      }
    }

    /** The first worker that has a result gives its oldest. */
    method TryPop() returns (i: nat, d: Option<Done>)
      requires |workers| == WORKERS
      modifies `workers
      ensures d == None ==> unchanged(this) && forall k | 0 <= k < WORKERS :: workers[k].done == []
      ensures d != None ==>
                && i < WORKERS && old(workers[i].done) != [] && d.value == old(workers[i].done[0])
                && (forall k | 0 <= k < i :: old(workers[k].done) == [])
                && workers == old(workers)[i := old(workers[i]).(done := old(workers[i].done)[1..])]
    {
      i := 0;
      while i < WORKERS
        invariant 0 <= i <= WORKERS
        invariant forall k | 0 <= k < i :: workers[k].done == []
      {
        var w := workers[i];
        if w.done != [] {
          workers := workers[i := w.(done := w.done[1..])];
          return i, Some(w.done[0]);
        }
        i := i + 1;
      }
      d := None;
    }

    /** Finishes a result that TryPop took from worker i, where `before` is the state it was taken
        in: the last one freezes the pool, a failed load or update is queued again, and the rows
        of an order go into the account's inventory. */
    method FinishEntry(ghost before: State, ghost i: nat, d: Done)
      requires Good(before) && i < WORKERS && before.workers[i].done != [] && before.workers[i].done[0] == d
      requires State() == before.(workers := before.workers[i := before.workers[i].(done := before.workers[i].done[1..])])
      requires before.inFlight > 0 && (thawed <==> inFlight > 0)
      modifies this
      ensures Valid() && State() == FinishOne(before, i)
    {
      hide Good, AtHome, FinishOne, Push, Overlay;
      GoodShape(before);
      FinishGood(before, i);
      FirstAtHome(before, i);
      FinishCases(before, i);
      ghost var mid := Taken(before, i);
      inFlight := inFlight - 1;
      if inFlight == 0 {
        thawed := false;
      }
      assert State() == mid;
      hide Taken;
      match d.job
      case Load(a) =>
        if !d.ok {
          PushTask(d.job);
        } else {
          accounts := accounts[a := accounts[a].(loaded := true, cache := d.inv, kept := d.card, counters := d.card.counters)];
          assert State() == mid.(accounts := accounts);
        }
      case Update(a, _) =>
        assert accounts[a := accounts[a]] == accounts;
        if !d.ok {
          PushTask(Update(a, accounts[a].kept));
        }
      case Order(a, _) =>
        if d.ok {
          var flex := ReadRows(d.rows);
          var cache := flex.Update(accounts[a].cache);
          accounts := accounts[a := accounts[a].(cache := cache)];
          assert State() == mid.(accounts := accounts);
        }
      case ReadUnsaved(a) =>
        assert accounts[a := accounts[a]] == accounts;
      case Search(_) =>
    }

    /** Takes and finishes the oldest result of the first worker that has one. */
    method FinishNext() returns (ghost steps: seq<Step>, some: bool)
      requires Valid()
      modifies this
      ensures Valid() && Takes(schema, old(State()), steps, State())
      ensures !some ==> unchanged(this) && forall k | 0 <= k < WORKERS :: workers[k].done == []
      ensures some ==> Results(workers) + 1 == Results(old(workers))
      ensures forall e | e in steps :: e.Finish? && e.worker < WORKERS
    {
      hide Good, AtHome, FinishOne, Takes;
      ghost var before := State();
      GoodShape(before);
      TakesNone(schema, before);
      var i, d := TryPop();
      some := d != None;
      steps := [];
      if some {
        ResultCounted(before, i);
        FinishEntry(before, i, d.value);
        steps := [Finish(i)];
        NextFinish(schema, before, i);
        TakesMore(schema, before, [], before, Finish(i));
        FinishResults(before, i);
        assert [] + [Finish(i)] == steps;
      }
    }

    /** Takes results until none waits; no result is taken twice or left. */
    method Tick() returns (ghost steps: seq<Step>)
      requires Valid()
      modifies this
      ensures Valid() && Takes(schema, old(State()), steps, State())
      ensures forall e | e in steps :: e.Finish?
      ensures forall k | 0 <= k < WORKERS :: workers[k].done == []
    {
      hide Good, AtHome, Takes, Next;
      steps := [];
      GoodShape(State());
      TakesNone(schema, State());
      var some := true;
      while some
        decreases some, Results(workers)
        invariant Valid() && Takes(schema, old(State()), steps, State())
        invariant forall e | e in steps :: e.Finish?
        invariant !some ==> |workers| == WORKERS && forall k | 0 <= k < WORKERS :: workers[k].done == []
      {
        ghost var more;
        ghost var middle := State();
        more, some := FinishNext();
        TakesAll(schema, old(State()), steps, middle, more, State());
        steps := steps + more;
        GoodShape(State());
      }
    }

    /** Waits for an account while the workers carry on as in `turns`.  The pool it waits on is
        never empty: its assertion on the in-flight count always holds. */
    method WaitFor(auth: nat, turns: seq<Turn>) returns (ghost steps: seq<Step>)
      requires Valid() && auth in accounts && forall t | t in turns :: t.worker < WORKERS
      modifies this
      ensures Valid() && Takes(schema, old(State()), steps, State()) && auth in accounts
      ensures accounts[auth].loaded || |steps| >= |turns|
      ensures Wins(turns, auth % WORKERS) > Ahead(old(workers), auth % WORKERS) ==> accounts[auth].loaded
    {
      hide Good, AtHome, Takes, Next, Line, Ahead, Wins;
      ghost var home := auth % WORKERS;
      steps := [];
      GoodShape(State());
      TakesNone(schema, State());
      var t := 0;
      NoWins(turns, home);
      while !accounts[auth].loaded && t < |turns|
        decreases |turns| - t, Results(workers)
        invariant Valid() && Takes(schema, old(State()), steps, State()) && auth in accounts
        invariant t <= |turns| && t <= |steps|
        invariant |workers| == WORKERS
        invariant accounts[auth].loaded || Wins(turns[..t], home) + Ahead(workers, home) <= Ahead(old(workers), home)
      {
        GoodCounts(State(), auth);
        assert inFlight > 0;
        ghost var more;
        ghost var middle := State();
        var some: bool;
        more, some := FinishNext();
        TakesAll(schema, old(State()), steps, middle, more, State());
        TakesKnown(schema, middle, more, State(), auth);
        TakesAhead(schema, middle, more, State(), home);
        steps := steps + more;
        if !some {
          middle := State();
          TurnAhead(schema, middle, turns, t, auth);
          WorkerTurn(turns[t]);
          TakesMore(schema, old(State()), steps, middle, Execute(turns[t].worker, turns[t].ok));
          NextKnown(schema, middle, Execute(turns[t].worker, turns[t].ok), auth);
          steps := steps + [Execute(turns[t].worker, turns[t].ok)];
          t := t + 1;
          GoodShape(State());
        }
      }
      assert turns[..|turns|] == turns;
    }
  }

  // --- how long a wait may take ---------------------------------------------

  function Fails(done: seq<Done>): nat {
    if done == [] then 0 else Fails(done[..|done| - 1]) + if done[|done| - 1].ok then 0 else 1
  }

  /** What a worker has before it: its jobs, and the failures that may come back to it. */
  function Ahead(ws: seq<Worker>, i: nat): nat
    requires i < |ws|
  {
    |ws[i].todo| + Fails(ws[i].done)
  }

  /** The turns in which the worker carries its job out well. */
  function Wins(turns: seq<Turn>, i: nat): nat {
    if turns == [] then 0
    else Wins(turns[..|turns| - 1], i) + if turns[|turns| - 1] == Turn(i, true) then 1 else 0
  }

  lemma NoWins(turns: seq<Turn>, i: nat)
    ensures Wins(turns[..0], i) == 0
  {
  }

  lemma {:induction false} FailsFirst(done: seq<Done>)
    requires done != []
    ensures Fails(done) == Fails(done[1..]) + if done[0].ok then 0 else 1
  {
    if |done| > 1 {
      FailsFirst(done[..|done| - 1]);
      assert done[..|done| - 1][1..] == done[1..][..|done| - 2];
    } else {
      assert done[..0] == [];
    }
  }

  lemma FailsLast(done: seq<Done>, d: Done)
    ensures Fails(done + [d]) == Fails(done) + if d.ok then 0 else 1
  {
    assert (done + [d])[..|done|] == done;
  }

  /** Taking a result never gives a worker more to do. */
  lemma FinishAhead(s: Schema, st: State, i: nat, h: nat)
    requires AtHome(st) && i < WORKERS && h < WORKERS
    ensures |Next(s, st, Finish(i)).workers| == WORKERS
    ensures Ahead(Next(s, st, Finish(i)).workers, h) <= Ahead(st.workers, h)
  {
    hide AtHome, Fails, Absorb;
    assert |st.workers| == WORKERS by { AtHomeSize(st); }
    if st.workers[i].done != [] && st.inFlight > 0 {
      FirstAtHome(st, i);
      FailsFirst(st.workers[i].done);
    }
  }

  lemma AtHomeSize(st: State)
    requires AtHome(st)
    ensures |st.workers| == WORKERS
  {
  }

  lemma ExecuteAhead(s: Schema, st: State, i: nat, ok: bool, h: nat)
    requires |st.workers| == WORKERS && i < WORKERS && h < WORKERS
    ensures |Next(s, st, Execute(i, ok)).workers| == WORKERS
    ensures Ahead(Next(s, st, Execute(i, ok)).workers, h) ==
            Ahead(st.workers, h) - if i == h && ok && st.workers[i].todo != [] then 1 else 0
  {
    hide Exec, Fails, View;
    if st.workers[i].todo != [] {
      FailsLast(st.workers[i].done, Carry(s, st.disk, st.workers[i].todo[0], ok).done);
    }
  }

  lemma {:induction false} TakesAhead(s: Schema, before: State, steps: seq<Step>, after: State, h: nat)
    requires Good(before) && Takes(s, before, steps, after) && h < WORKERS
    requires forall e | e in steps :: e.Finish? && e.worker < WORKERS
    ensures Good(after) && |after.workers| == |before.workers| == WORKERS
    ensures Ahead(after.workers, h) <= Ahead(before.workers, h)
  {
    hide Good, Next, Ahead, AtHome;
    GoodShape(before);
    if steps != [] {
      var most := steps[..|steps| - 1];
      var middle := SqlPool.Run(s, before, most);
      assert steps[|steps| - 1] in steps;
      TakesAhead(s, before, most, middle, h);
      GoodShape(middle);
      NextGood(s, middle, steps[|steps| - 1]);
      FinishAhead(s, middle, steps[|steps| - 1].worker, h);
    }
  }

  /** When no result waits, the account's load is among the jobs of its worker. */
  lemma LoadWaits(st: State, a: nat)
    requires Good(st) && a in st.accounts && !st.accounts[a].loaded
    requires |st.workers| == WORKERS && st.workers[a % WORKERS].done == []
    ensures st.workers[a % WORKERS].todo != []
  {
    GoodCounts(st, a);
    hide Good;
    assert Load(a) in Line(st.workers[a % WORKERS]);
  }

  lemma TurnAhead(s: Schema, st: State, turns: seq<Turn>, t: nat, a: nat)
    requires Good(st) && a in st.accounts && t < |turns| && turns[t].worker < WORKERS
    requires |st.workers| == WORKERS && forall k | 0 <= k < WORKERS :: st.workers[k].done == []
    ensures var h, after := a % WORKERS, Next(s, st, Execute(turns[t].worker, turns[t].ok));
            && |after.workers| == WORKERS
            && (st.accounts[a].loaded ||
                Wins(turns[..t + 1], h) + Ahead(after.workers, h) <= Wins(turns[..t], h) + Ahead(st.workers, h))
  {
    hide Good, Next, Ahead;
    assert turns[..t + 1][..t] == turns[..t];
    if !st.accounts[a].loaded {
      LoadWaits(st, a);
    }
    hide Good, Next, Ahead;
    ExecuteAhead(s, st, turns[t].worker, turns[t].ok, a % WORKERS);
  }

  lemma NextFinish(s: Schema, st: State, i: nat)
    requires |st.workers| == WORKERS && i < WORKERS && st.workers[i].done != [] && st.inFlight > 0
    ensures Next(s, st, Finish(i)) == FinishOne(st, i)
  {
  }

  lemma FinishResults(st: State, i: nat)
    requires AtHome(st) && i < WORKERS && st.workers[i].done != [] && st.inFlight > 0
    ensures Results(FinishOne(st, i).workers) + 1 == Results(st.workers)
  {
    FinishShape(st, i);
    ResultsSet(st.workers, i, Finished(st, i).workers[i]);
    hide FinishOne, Results;
  }

  /** A waiting result is in flight. */
  lemma ResultCounted(st: State, i: nat)
    requires Good(st) && i < WORKERS && st.workers[i].done != []
    ensures st.inFlight > 0
  {
    OutstandingSet(st.workers, i, Worker([], []));
    hide Outstanding;
  }

  lemma {:induction false} TakesAll(s: Schema, before: State, steps: seq<Step>, middle: State, more: seq<Step>, after: State)
    requires Takes(s, before, steps, middle) && Takes(s, middle, more, after)
    ensures Takes(s, before, steps + more, after)
  {
    hide Next;
    if more == [] {
      assert steps + more == steps;
    } else {
      var most := more[..|more| - 1];
      TakesAll(s, before, steps, middle, most, SqlPool.Run(s, middle, most));
      TakesMore(s, before, steps + most, SqlPool.Run(s, middle, most), more[|more| - 1]);
      assert steps + more == steps + most + [more[|more| - 1]];
    }
  }

  lemma {:induction false} TakesKnown(s: Schema, before: State, steps: seq<Step>, after: State, a: nat)
    requires Takes(s, before, steps, after) && a in before.accounts
    ensures a in after.accounts
  {
    hide Next;
    if steps != [] {
      TakesKnown(s, before, steps[..|steps| - 1], SqlPool.Run(s, before, steps[..|steps| - 1]), a);
      NextKnown(s, SqlPool.Run(s, before, steps[..|steps| - 1]), steps[|steps| - 1], a);
    }
  }
}

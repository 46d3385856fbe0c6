/**
 One request beside the whole pool.  Whatever the request, the shards, the other accounts
 and the workers do, and in whatever order, the request's revert waits behind its add at
 the same worker; and once a revert has been carried out, the order has left no trace
 exactly if nobody had it saved in between.
 */
module CompensationRuns {
  import opened OrderLedger
  import opened Compensation
  import L = Lifecycle
  import T = LifecycleTheorems
  import P = SqlPool

  /** `trace` is what the workers have carried out successfully, in the order of the database;
      `tried` tells that one of the order's reverts has been carried out, well or badly. */
  datatype World = World(h: L.History, pool: P.State, trace: seq<Task>, tried: bool)

  /** A step of the pool that takes the result of the order's add passes it on to the request,
      which sees the links as `env` has them; the charge hears of its result in no other way. */
  datatype Action =
    | Happens(p: L.Happening)                 // any other event of the request
    | Pools(step: P.Step, env: L.Env)         // a step of the pool, for any account

  function AddJob(c: Case): P.Job {
    P.Job.Order(c.auth, c.add)
  }

  function RevertJob(c: Case): P.Job {
    P.Job.Order(c.auth, Revert(c.search))
  }

  function SaveJob(c: Case): P.Job {
    P.Job.Order(c.auth, OrderLedger.Save(c.search))
  }

  /** The jobs that the request's effects push: its reverts, also of a forgotten order, and its save. */
  function JobsOf(c: Case, fx: seq<L.Effect>): seq<P.Job> {
    if fx == [] then []
    else
      var f := fx[|fx| - 1];
      JobsOf(c, fx[..|fx| - 1])
      + (match f
         case Revert => [RevertJob(c)]
         case ForgottenRevert => [RevertJob(c)]
         case Save => [SaveJob(c)]
         case _ => [])
  }

  function PushAll(st: P.State, jobs: seq<P.Job>): (z: P.State)
    requires |st.workers| == P.WORKERS
    ensures |z.workers| == P.WORKERS
  {
    if jobs == [] then st else P.Push(PushAll(st, jobs[..|jobs| - 1]), jobs[|jobs| - 1])
  }

  /** Other code adds orders with ids of their own; it may save or revert this one at any time. */
  predicate Allowed(c: Case, e: P.Step) {
    e.Submit? ==> AddsOthers(e.op, c.ids)
  }

  /** The step takes the result of the order's add. */
  predicate TakesResult(c: Case, st: P.State, e: P.Step) {
    && e.Finish? && e.worker < |st.workers| && st.workers[e.worker].done != [] && st.inFlight > 0
    && st.workers[e.worker].done[0].job == AddJob(c)
  }

  /** What a worker's turn adds to the trace. */
  function Traced(st: P.State, e: P.Step): seq<Task> {
    if e.Execute? && e.ok && e.worker < |st.workers| && st.workers[e.worker].todo != [] && st.workers[e.worker].todo[0].Order?
    then [Task(st.workers[e.worker].todo[0].auth, st.workers[e.worker].todo[0].op)]
    else []
  }

  predicate Tries(c: Case, st: P.State, e: P.Step) {
    e.Execute? && e.worker < |st.workers| && st.workers[e.worker].todo != [] && st.workers[e.worker].todo[0] == RevertJob(c)
  }

  /** The request hears of an event, and pushes what it makes it push. */
  function Hears(c: Case, w: World, p: L.Happening): (z: World)
    requires |w.pool.workers| == P.WORKERS
    ensures |z.pool.workers| == P.WORKERS
  {
    w.(h := L.Advance(w.h, p), pool := PushAll(w.pool, JobsOf(c, L.Step1(w.h.r, p.event, p.env).fx)))
  }

  function PoolMoves(s: Schema, c: Case, w: World, e: P.Step): (z: World)
    requires |w.pool.workers| == P.WORKERS
    ensures |z.pool.workers| == P.WORKERS
  {
    w.(pool := P.Next(s, w.pool, e), trace := w.trace + Traced(w.pool, e), tried := w.tried || Tries(c, w.pool, e))
  }

  function Next(s: Schema, c: Case, w: World, a: Action): (z: World)
    requires |w.pool.workers| == P.WORKERS
    ensures |z.pool.workers| == P.WORKERS
  {
    match a
    case Happens(p) => if p.event.Charged? then w else Hears(c, w, p)
    case Pools(e, env) =>
      if !Allowed(c, e) then w
      else if TakesResult(c, w.pool, e) then
        Hears(c, PoolMoves(s, c, w, e), L.Happening(L.Event.Charged(w.pool.workers[e.worker].done[0].ok), env))
      else PoolMoves(s, c, w, e)
  }

  function Run(s: Schema, c: Case, w: World, acts: seq<Action>): (z: World)
    requires |w.pool.workers| == P.WORKERS
    ensures |z.pool.workers| == P.WORKERS
  {
    if acts == [] then w else Next(s, c, Run(s, c, w, acts[..|acts| - 1]), acts[|acts| - 1])
  }

  function Home(c: Case): nat {
    c.auth % P.WORKERS
  }

  /** No job and no result speaks of the order yet. */
  ghost predicate Untouched(c: Case, st: P.State) {
    && |st.workers| == P.WORKERS
    && (forall i, j | 0 <= i < P.WORKERS && j in st.workers[i].todo && j.Order? :: Foreign(j.op, c.ids))
    && (forall i, d | 0 <= i < P.WORKERS && d in st.workers[i].done && d.job.Order? :: Foreign(d.job.op, c.ids))
  }

  /** The request has just been started: its add is queued, and nobody else speaks of its ids. */
  ghost predicate Start(c: Case, w: World) {
    && WellFormed(c)
    && (exists kind, byVip, env ::
          L.Begin(kind, c.search, byVip, env).fx == [L.Submit]
          && w.h == L.History(L.Begin(kind, c.search, byVip, env).r, L.Items([L.Submit])))
    && w.trace == [] && !w.tried
    && exists st :: P.Good(st) && c.auth in st.accounts && Untouched(c, st)
         && Fresh(st.disk.db.log, c.ids) && HasRows(st.disk.db.inv, st.disk.db.log) && w.pool == P.Push(st, AddJob(c))
  }

  // ---------------------------------------------------------------------
  //  The invariant
  // ---------------------------------------------------------------------

  /** The add waits at place k of its worker, and no revert before it. */
  ghost predicate WaitsAt(c: Case, todo: seq<P.Job>, k: nat) {
    && k < |todo| && todo[k] == AddJob(c)
    && (forall m | 0 <= m < |todo| && m != k :: todo[m] != AddJob(c))
    && (forall m | 0 <= m < k :: todo[m] != RevertJob(c))
  }

  /** The add waits, or it has run before every revert, or it has failed. */
  ghost predicate Staged(c: Case, todo: seq<P.Job>, trace: seq<Task>) {
    || ((exists k :: WaitsAt(c, todo, k)) && forall t | t in trace :: !IsAdd(c, t) && !IsRevert(c, t))
    || (AddJob(c) !in todo && exists i :: AddFirst(c, trace, i))
    || (AddJob(c) !in todo && forall t | t in trace :: !IsAdd(c, t))
  }

  /** The order's add and revert are at its own worker; no other job adds rows under its ids. */
  ghost predicate Sorted(c: Case, st: P.State) {
    && |st.workers| == P.WORKERS
    && forall i, j | 0 <= i < P.WORKERS && j in st.workers[i].todo && j.Order? ::
         && (j == AddJob(c) || AddsOthers(j.op, c.ids))
         && (j == AddJob(c) || j == RevertJob(c) ==> i == Home(c))
  }

  /** What the invariant says of the queues and the trace. */
  ghost predicate Queued(c: Case, st: P.State, trace: seq<Task>) {
    Sorted(c, st) && Staged(c, st.workers[Home(c)].todo, trace)
  }

  /** The order is staged, and a revert that was sent is queued or was tried. */
  ghost predicate Watched(c: Case, log: seq<L.Item>, st: P.State, trace: seq<Task>, tried: bool) {
    && Queued(c, st, trace)
    && Separate(c, trace)
    && (L.Fx(L.Effect.Revert) in log ==> RevertJob(c) in st.workers[Home(c)].todo || tried)
  }

  predicate Added(c: Case, trace: seq<Task>) {
    exists t | t in trace :: IsAdd(c, t)
  }

  /** A success that waits to be taken, or that the request has heard of, is one of the database. */
  ghost predicate Truthful(c: Case, log: seq<L.Item>, st: P.State, trace: seq<Task>) {
    && |st.workers| == P.WORKERS
    && (forall i, d | 0 <= i < P.WORKERS && d in st.workers[i].done && d.job == AddJob(c) && d.ok :: Added(c, trace))
    && (L.In(L.Event.Charged(true)) in log ==> Added(c, trace))
  }

  ghost predicate Safe(s: Schema, c: Case, db: Db, w: World) {
    && WellFormed(c)
    && T.Accounted(w.h, 1) && w.h.r.order == c.search && T.Paid(w.h, false)
    && P.Good(w.pool) && c.auth in w.pool.accounts
    && w.pool.disk.db == OrderLedger.Run(s, db, w.trace)
    && Watched(c, w.h.log, w.pool, w.trace, w.tried) && Truthful(c, w.h.log, w.pool, w.trace)
  }

  // --- jobs that are pushed ------------------------------------------------

  lemma StagedPush(c: Case, todo: seq<P.Job>, trace: seq<Task>, j: P.Job)
    requires Staged(c, todo, trace) && j != AddJob(c)
    ensures Staged(c, todo + [j], trace)
  {
    if k :| WaitsAt(c, todo, k) {
      assert WaitsAt(c, todo + [j], k);
    }
  }

  /** A push that adds no rows under the order's ids. */
  predicate Harmless(c: Case, j: P.Job) {
    j.Order? ==> AddsOthers(j.op, c.ids)
  }

  lemma HarmlessJob(c: Case, j: P.Job)
    requires WellFormed(c) && Harmless(c, j)
    ensures j != AddJob(c) && (j == RevertJob(c) ==> P.Home(j) == Home(c))
  {
  }

  lemma AddIsNotRevert(c: Case)
    requires WellFormed(c)
    ensures AddJob(c) != RevertJob(c)
  {
  }

  /** Only the todo queues changed: one of them, at the job's home, got the job. */
  ghost predicate Appended(st: P.State, st': P.State, j: P.Job) {
    && |st.workers| == |st'.workers| == P.WORKERS
    && forall i | 0 <= i < P.WORKERS ::
         st'.workers[i].todo == if i == P.Home(j) then st.workers[i].todo + [j] else st.workers[i].todo
  }

  lemma PushQueued(c: Case, st: P.State, st': P.State, trace: seq<Task>, j: P.Job)
    requires WellFormed(c) && Queued(c, st, trace) && Harmless(c, j) && Appended(st, st', j)
    ensures Queued(c, st', trace)
    ensures forall x | x in st.workers[Home(c)].todo :: x in st'.workers[Home(c)].todo
    ensures j == RevertJob(c) ==> j in st'.workers[Home(c)].todo
  {
    AddIsNotRevert(c);
    HarmlessJob(c, j);
    StagedPush(c, st.workers[Home(c)].todo, trace, j);
    hide Staged, AddsOthers, WellFormed;
  }

  /** A step that is no worker's turn pushes one harmless job, or none, and leaves the trace alone. */
  lemma StepPushes(s: Schema, c: Case, st: P.State, e: P.Step)
    requires |st.workers| == P.WORKERS && !e.Execute? && Allowed(c, e)
    ensures |P.Next(s, st, e).workers| == P.WORKERS
    ensures var st' := P.Next(s, st, e);
            || (forall i | 0 <= i < P.WORKERS :: st'.workers[i].todo == st.workers[i].todo)
            || exists j :: Harmless(c, j) && Appended(st, st', j)
  {
    hide AddsOthers, P.Absorb;
    var st' := P.Next(s, st, e);
    match e
    case Know(a) => assert Harmless(c, P.Load(a));
    case Submit(a, op) => assert Harmless(c, P.Job.Order(a, op));
    case Recall(a) => assert Harmless(c, P.ReadUnsaved(a));
    case Look(w) => assert Harmless(c, P.Search(w));
    case Change(_, _, _) =>
    case Commit(a) =>
      if a in st.accounts { assert Harmless(c, P.Update(a, P.Current(st.accounts[a]))); }
    case Finish(i) =>
      if i < P.WORKERS && st.workers[i].done != [] {
        var d := st.workers[i].done[0];
        if d.job.Load? { assert Harmless(c, d.job); }
        if d.job.Update? && d.job.auth in st.accounts { assert Harmless(c, P.Update(d.job.auth, st.accounts[d.job.auth].kept)); }
      }
  }

  lemma PassiveQueued(s: Schema, c: Case, st: P.State, trace: seq<Task>, e: P.Step)
    requires WellFormed(c) && Queued(c, st, trace) && !e.Execute? && Allowed(c, e)
    ensures Queued(c, P.Next(s, st, e), trace)
    ensures forall x | x in st.workers[Home(c)].todo :: x in P.Next(s, st, e).workers[Home(c)].todo
  {
    hide P.Next, AddsOthers, WellFormed, Staged;
    var st' := P.Next(s, st, e);
    StepPushes(s, c, st, e);
    if exists j :: Harmless(c, j) && Appended(st, st', j) {
      var j :| Harmless(c, j) && Appended(st, st', j);
      PushQueued(c, st, st', trace, j);
    }
  }

  // --- a worker's turn -----------------------------------------------------

  function TaskOf(j: P.Job): Task
    requires j.Order?
  {
    Task(j.auth, j.op)
  }

  lemma AddFirstLater(c: Case, trace: seq<Task>, i: nat, t: Task)
    requires AddFirst(c, trace, i) && !IsAdd(c, t)
    ensures AddFirst(c, trace + [t], i)
  {
  }

  /** A task of another order changes nothing in the staging. */
  lemma StagedForeign(c: Case, todo: seq<P.Job>, trace: seq<Task>, t: Task)
    requires Staged(c, todo, trace) && !IsAdd(c, t) && !IsRevert(c, t)
    ensures Staged(c, todo, trace + [t])
  {
    if i :| AddFirst(c, trace, i) {
      AddFirstLater(c, trace, i, t);
    }
  }

  /** The worker of the order takes its next job. */
  lemma StagedTake(c: Case, todo: seq<P.Job>, trace: seq<Task>, ok: bool)
    requires Staged(c, todo, trace) && todo != [] && AddJob(c) != RevertJob(c)
    ensures Staged(c, todo[1..], trace + (if ok && todo[0].Order? then [TaskOf(todo[0])] else []))
  {
    var j := todo[0];
    var ran := if ok && j.Order? then [TaskOf(j)] else [];
    assert trace + [] == trace;
    if (exists k :: WaitsAt(c, todo, k)) && forall t | t in trace :: !IsAdd(c, t) && !IsRevert(c, t) {
      var k: nat :| WaitsAt(c, todo, k);
      assert forall m | 0 <= m < |todo[1..]| :: todo[1..][m] == todo[m + 1];
      if k > 0 {
        assert WaitsAt(c, todo[1..], k - 1);
      } else {
        assert AddJob(c) !in todo[1..];
        if ok { assert AddFirst(c, trace + ran, |trace|); }
      }
    } else if exists i :: AddFirst(c, trace, i) {
      var i: nat :| AddFirst(c, trace, i);
      assert j != AddJob(c) && AddJob(c) !in todo[1..];
      if ran != [] { AddFirstLater(c, trace, i, TaskOf(j)); }
    } else {
      assert j != AddJob(c) && AddJob(c) !in todo[1..];
    }
  }

  lemma TurnQueued(s: Schema, c: Case, st: P.State, trace: seq<Task>, i: nat, ok: bool)
    requires WellFormed(c) && Queued(c, st, trace) && Separate(c, trace) && i < P.WORKERS && st.workers[i].todo != []
    ensures var st', trace' := P.WorkerRuns(s, st, i, ok), trace + Traced(st, P.Execute(i, ok));
            && Queued(c, st', trace') && Separate(c, trace')
            && forall x | x in st.workers[Home(c)].todo ::
                 x in st'.workers[Home(c)].todo || (i == Home(c) && x == st.workers[i].todo[0])
  {
    AddIsNotRevert(c);
    var todo, j := st.workers[i].todo, st.workers[i].todo[0];
    assert todo == [j] + todo[1..];
    assert j in todo;
    var st', ran := P.WorkerRuns(s, st, i, ok), Traced(st, P.Execute(i, ok));
    assert trace + [] == trace;
    hide P.Carry, WellFormed, AddsOthers, Staged;
    assert forall k | 0 <= k < P.WORKERS :: st'.workers[k].todo == if k == i then todo[1..] else st.workers[k].todo;
    if i == Home(c) {
      StagedTake(c, todo, trace, ok);
    } else if ran != [] {
      assert !IsAdd(c, ran[0]) && !IsRevert(c, ran[0]);
      StagedForeign(c, st.workers[Home(c)].todo, trace, ran[0]);
    }
  }

  lemma TurnTraced(s: Schema, db: Db, st: P.State, trace: seq<Task>, i: nat, ok: bool)
    requires |st.workers| == P.WORKERS && i < P.WORKERS && st.workers[i].todo != []
    requires st.disk.db == OrderLedger.Run(s, db, trace)
    ensures P.WorkerRuns(s, st, i, ok).disk.db == OrderLedger.Run(s, db, trace + Traced(st, P.Execute(i, ok)))
  {
    var ran := Traced(st, P.Execute(i, ok));
    hide Exec;
    if ran == [] {
      assert trace + ran == trace;
    } else {
      assert (trace + ran)[..|trace|] == trace;
    }
  }

  lemma MovesSafe(s: Schema, c: Case, db: Db, w: World, e: P.Step)
    requires Safe(s, c, db, w) && Allowed(c, e)
    ensures Safe(s, c, db, PoolMoves(s, c, w, e))
  {
    hide P.Good, T.Accounted, T.Paid, P.Next, OrderLedger.Run, WellFormed, Watched, Truthful, Tries;
    PoolSize(w.pool);
    P.NextGood(s, w.pool, e);
    P.NextKnown(s, w.pool, e, c.auth);
    MovesTruthful(s, c, w, e);
    if e.Execute? {
      ExecuteWatched(s, c, db, w, e.worker, e.ok);
      hide Traced;
    } else {
      assert Traced(w.pool, e) == [] && w.trace + [] == w.trace;
      NotTried(c, w.pool, e);
      hide Traced;
      P.OnlyWorkersWrite(s, w.pool, e);
      PassiveWatched(s, c, w, e);
    }
  }

  lemma AddedStays(c: Case, trace: seq<Task>, more: seq<Task>)
    requires Added(c, trace)
    ensures Added(c, trace + more)
  {
    var t :| t in trace && IsAdd(c, t);
    assert t in trace + more;
  }

  /** A worker's results are those it had, and after its turn the one of the job it carried out. */
  lemma DoneAfter(s: Schema, st: P.State, e: P.Step, i: nat, d: P.Done)
    requires |st.workers| == P.WORKERS && i < P.WORKERS
    ensures |P.Next(s, st, e).workers| == P.WORKERS
    ensures d in P.Next(s, st, e).workers[i].done ==>
              d in st.workers[i].done || (e == P.Execute(i, d.ok) && st.workers[i].todo != [] && d.job == st.workers[i].todo[0])
  {
    hide P.Absorb, Exec;
  }

  lemma MovesTruthful(s: Schema, c: Case, w: World, e: P.Step)
    requires |w.pool.workers| == P.WORKERS && Truthful(c, w.h.log, w.pool, w.trace)
    ensures Truthful(c, w.h.log, P.Next(s, w.pool, e), w.trace + Traced(w.pool, e))
  {
    hide P.Next, Added;
    var st', trace' := P.Next(s, w.pool, e), w.trace + Traced(w.pool, e);
    if Added(c, w.trace) { AddedStays(c, w.trace, Traced(w.pool, e)); }
    forall i, d | 0 <= i < |st'.workers| && |st'.workers| == P.WORKERS && d in st'.workers[i].done && d.job == AddJob(c) && d.ok
      ensures Added(c, trace')
    {
      DoneAfter(s, w.pool, e, i, d);
      if d !in w.pool.workers[i].done {
        TracedAdd(c, w.pool, w.trace, i);
      }
    }
    DoneAfter(s, w.pool, e, 0, P.Done(AddJob(c), false, [], map[], P.Card(0, 0)));
  }

  lemma TracedAdd(c: Case, st: P.State, trace: seq<Task>, i: nat)
    requires i < |st.workers| && st.workers[i].todo != [] && st.workers[i].todo[0] == AddJob(c)
    ensures Added(c, trace + Traced(st, P.Execute(i, true)))
  {
    var all := trace + Traced(st, P.Execute(i, true));
    assert all[|trace|] == Task(c.auth, c.add);
    assert IsAdd(c, all[|trace|]) && all[|trace|] in all;
  }

  /** A success that is taken from the pool is one of the database. */
  lemma ResultTruthful(c: Case, w: World, e: P.Step)
    requires Truthful(c, w.h.log, w.pool, w.trace) && TakesResult(c, w.pool, e) && w.pool.workers[e.worker].done[0].ok
    ensures Added(c, w.trace)
  {
    var d := w.pool.workers[e.worker].done[0];
    assert d in w.pool.workers[e.worker].done;
    hide Added;
  }

  lemma PoolSize(st: P.State)
    requires P.Good(st)
    ensures |st.workers| == P.WORKERS
  {
  }

  lemma NotTried(c: Case, st: P.State, e: P.Step)
    requires !e.Execute?
    ensures !Tries(c, st, e)
  {
  }

  lemma ExecuteWatched(s: Schema, c: Case, db: Db, w: World, i: nat, ok: bool)
    requires |w.pool.workers| == P.WORKERS && WellFormed(c) && w.pool.disk.db == OrderLedger.Run(s, db, w.trace)
    requires Watched(c, w.h.log, w.pool, w.trace, w.tried)
    ensures var e := P.Execute(i, ok); var st', trace' := P.Next(s, w.pool, e), w.trace + Traced(w.pool, e);
            && st'.disk.db == OrderLedger.Run(s, db, trace')
            && Watched(c, w.h.log, st', trace', w.tried || Tries(c, w.pool, e))
  {
    hide P.WorkerRuns, OrderLedger.Run, WellFormed, Queued, Separate;
    assert w.trace + [] == w.trace;
    if i < P.WORKERS && w.pool.workers[i].todo != [] {
      TurnTraced(s, db, w.pool, w.trace, i, ok);
      TurnQueued(s, c, w.pool, w.trace, i, ok);
    }
  }

  lemma PassiveWatched(s: Schema, c: Case, w: World, e: P.Step)
    requires |w.pool.workers| == P.WORKERS && WellFormed(c) && !e.Execute? && Allowed(c, e)
    requires Watched(c, w.h.log, w.pool, w.trace, w.tried)
    ensures Watched(c, w.h.log, P.Next(s, w.pool, e), w.trace, w.tried)
  {
    hide P.Next, WellFormed, Queued, Separate;
    PassiveQueued(s, c, w.pool, w.trace, e);
  }

  // --- an event of the request ---------------------------------------------

  lemma {:induction false} PushAllGood(c: Case, st: P.State, fx: seq<L.Effect>)
    requires P.Good(st) && c.auth in st.accounts
    ensures |st.workers| == P.WORKERS
    ensures var st' := PushAll(st, JobsOf(c, fx));
            P.Good(st') && st'.accounts == st.accounts && st'.disk == st.disk
  {
    hide P.Good;
    PoolSize(st);
    if fx != [] {
      var most, f := fx[..|fx| - 1], fx[|fx| - 1];
      PushAllGood(c, st, most);
      var st0 := PushAll(st, JobsOf(c, most));
      assert JobsOf(c, most) + [] == JobsOf(c, most);
      if f == L.Effect.Revert || f == L.ForgottenRevert {
        P.PushGood(st0, RevertJob(c));
        PushAllLast(st, JobsOf(c, most), RevertJob(c));
      } else if f == L.Effect.Save {
        P.PushGood(st0, SaveJob(c));
        PushAllLast(st, JobsOf(c, most), SaveJob(c));
      }
    }
  }

  lemma PushAllLast(st: P.State, jobs: seq<P.Job>, j: P.Job)
    requires |st.workers| == P.WORKERS
    ensures PushAll(st, jobs + [j]) == P.Push(PushAll(st, jobs), j)
  {
    assert (jobs + [j])[..|jobs|] == jobs;
  }

  lemma PushAppends(st: P.State, j: P.Job)
    requires |st.workers| == P.WORKERS
    ensures Appended(st, P.Push(st, j), j)
  {
  }

  lemma SaveHarmless(c: Case)
    requires WellFormed(c)
    ensures Harmless(c, SaveJob(c)) && Harmless(c, RevertJob(c)) && SaveJob(c) != RevertJob(c)
  {
  }

  lemma PushOneQueued(c: Case, st: P.State, trace: seq<Task>, j: P.Job)
    requires WellFormed(c) && Queued(c, st, trace) && Harmless(c, j)
    ensures Queued(c, P.Push(st, j), trace)
    ensures forall x | x in st.workers[Home(c)].todo :: x in P.Push(st, j).workers[Home(c)].todo
    ensures j == RevertJob(c) ==> j in P.Push(st, j).workers[Home(c)].todo
  {
    hide P.Push, WellFormed, Staged, AddsOthers;
    PushAppends(st, j);
    PushQueued(c, st, P.Push(st, j), trace, j);
  }

  lemma QueuedSize(c: Case, st: P.State, trace: seq<Task>)
    requires Queued(c, st, trace)
    ensures |st.workers| == P.WORKERS
  {
  }

  lemma PushKeepsDone(st: P.State, j: P.Job)
    requires |st.workers| == P.WORKERS
    ensures |P.Push(st, j).workers| == P.WORKERS
    ensures forall i | 0 <= i < P.WORKERS :: P.Push(st, j).workers[i].done == st.workers[i].done
  {
  }

  /** Effects push saves and reverts at most, behind whatever waits. */
  lemma {:induction false} PushAllQueued(c: Case, st: P.State, trace: seq<Task>, fx: seq<L.Effect>)
    requires WellFormed(c) && Queued(c, st, trace)
    ensures |st.workers| == P.WORKERS
    ensures var st' := PushAll(st, JobsOf(c, fx));
            && Queued(c, st', trace)
            && (forall i | 0 <= i < P.WORKERS :: st'.workers[i].done == st.workers[i].done)
            && (forall x | x in st.workers[Home(c)].todo :: x in st'.workers[Home(c)].todo)
            && (L.Effect.Revert in fx ==> RevertJob(c) in st'.workers[Home(c)].todo)
  {
    hide WellFormed, Queued, Harmless, P.Push;
    SaveHarmless(c);
    assert |st.workers| == P.WORKERS by { QueuedSize(c, st, trace); }
    if fx != [] {
      var most, f := fx[..|fx| - 1], fx[|fx| - 1];
      assert fx == most + [f];
      PushAllQueued(c, st, trace, most);
      var st0 := PushAll(st, JobsOf(c, most));
      assert JobsOf(c, most) + [] == JobsOf(c, most);
      if f == L.Effect.Revert || f == L.ForgottenRevert {
        PushAllLast(st, JobsOf(c, most), RevertJob(c));
        PushOneQueued(c, st0, trace, RevertJob(c));
        PushKeepsDone(st0, RevertJob(c));
      } else if f == L.Effect.Save {
        PushAllLast(st, JobsOf(c, most), SaveJob(c));
        PushOneQueued(c, st0, trace, SaveJob(c));
        PushKeepsDone(st0, SaveJob(c));
      }
    }
  }

  lemma HearsSafe(s: Schema, c: Case, db: Db, w: World, p: L.Happening)
    requires Safe(s, c, db, w) && (p.event == L.Event.Charged(true) ==> Added(c, w.trace))
    ensures |w.pool.workers| == P.WORKERS && Safe(s, c, db, Hears(c, w, p))
  {
    hide P.Good, OrderLedger.Run, WellFormed, L.Step1, PushAll, JobsOf, T.Accounted, T.Paid, Watched, Truthful, Added;
    PoolSize(w.pool);
    var fx := L.Step1(w.h.r, p.event, p.env).fx;
    T.AdvanceAccounted(w.h, p, 1);
    T.AdvancePaid(w.h, false, p);
    T.StepFair(w.h.r, p.event, p.env);
    PushAllGood(c, w.pool, fx);
    HearsWatched(c, w, p, fx);
  }

  lemma HearsWatched(c: Case, w: World, p: L.Happening, fx: seq<L.Effect>)
    requires |w.pool.workers| == P.WORKERS && WellFormed(c)
    requires Watched(c, w.h.log, w.pool, w.trace, w.tried) && Truthful(c, w.h.log, w.pool, w.trace)
    requires fx == L.Step1(w.h.r, p.event, p.env).fx && (p.event == L.Event.Charged(true) ==> Added(c, w.trace))
    ensures Watched(c, L.Advance(w.h, p).log, PushAll(w.pool, JobsOf(c, fx)), w.trace, w.tried)
    ensures Truthful(c, L.Advance(w.h, p).log, PushAll(w.pool, JobsOf(c, fx)), w.trace)
  {
    hide WellFormed, L.Step1, PushAll, JobsOf, Queued, Separate, Added;
    var log' := L.Advance(w.h, p).log;
    assert log' == w.h.log + [L.In(p.event)] + L.Items(fx);
    PushAllQueued(c, w.pool, w.trace, fx);
    if L.Fx(L.Effect.Revert) in L.Items(fx) {
      var i :| 0 <= i < |fx| && L.Items(fx)[i] == L.Fx(L.Effect.Revert);
      assert fx[i] == L.Effect.Revert;
    }
  }

  // --- every reachable world -----------------------------------------------

  lemma StartHistory(c: Case, w: World)
    requires Start(c, w)
    ensures T.Accounted(w.h, 1) && T.Paid(w.h, false) && w.h.r.order == c.search && w.h.log == [L.Fx(L.Submit)]
  {
    var kind, byVip, env :|
      L.Begin(kind, c.search, byVip, env).fx == [L.Submit]
      && w.h == L.History(L.Begin(kind, c.search, byVip, env).r, L.Items([L.Submit]));
    hide T.Accounted, T.Paid, L.Begin, P.Good;
    T.BeginStarted(kind, c.search, byVip, env);
    T.StartAccounted(w.h, false);
    T.DeliveryNeedsCharge(w.h, false, []);
    T.BeginOrder(kind, c.search, byVip, env);
  }

  lemma ForeignNotOwn(c: Case, j: P.Job)
    requires WellFormed(c) && j.Order? && Foreign(j.op, c.ids)
    ensures j != AddJob(c) && j != RevertJob(c)
  {
  }

  lemma StartQueued(c: Case, st: P.State)
    requires WellFormed(c) && |st.workers| == P.WORKERS && Untouched(c, st)
    ensures Queued(c, P.Push(st, AddJob(c)), [])
    ensures forall i, d | 0 <= i < P.WORKERS && d in P.Push(st, AddJob(c)).workers[i].done :: d.job != AddJob(c)
  {
    AddIsNotRevert(c);
    var todo := st.workers[Home(c)].todo;
    forall i, j | 0 <= i < P.WORKERS && j in st.workers[i].todo && j.Order? ensures j != AddJob(c) && j != RevertJob(c) {
      ForeignNotOwn(c, j);
    }
    forall i, d | 0 <= i < P.WORKERS && d in st.workers[i].done && d.job.Order? ensures d.job != AddJob(c) {
      ForeignNotOwn(c, d.job);
    }
    hide WellFormed, Foreign;
    PushAppends(st, AddJob(c));
    assert WaitsAt(c, todo + [AddJob(c)], |todo|);
    assert forall i | 0 <= i < P.WORKERS :: P.Push(st, AddJob(c)).workers[i].done == st.workers[i].done;
    hide P.Push;
  }

  lemma StartSafe(s: Schema, c: Case, w: World)
    requires Start(c, w)
    ensures Safe(s, c, w.pool.disk.db, w)
    ensures Fresh(w.pool.disk.db.log, c.ids) && HasRows(w.pool.disk.db.inv, w.pool.disk.db.log)
  {
    hide T.Accounted, T.Paid, HasRows, Fresh, Foreign, P.Good, L.Begin, Queued;
    var st :| P.Good(st) && c.auth in st.accounts && Untouched(c, st)
         && Fresh(st.disk.db.log, c.ids) && HasRows(st.disk.db.inv, st.disk.db.log) && w.pool == P.Push(st, AddJob(c));
    StartHistory(c, w);
    PoolSize(st);
    P.PushGood(st, AddJob(c));
    StartQueued(c, st);
    hide Start, WellFormed, Untouched, Added;
  }

  lemma {:induction false} RunSafe(s: Schema, c: Case, w: World, acts: seq<Action>)
    requires |w.pool.workers| == P.WORKERS && Start(c, w)
    ensures Safe(s, c, w.pool.disk.db, Run(s, c, w, acts))
  {
    hide Safe, P.Next;
    StartSafe(s, c, w);
    if acts != [] {
      RunSafe(s, c, w, acts[..|acts| - 1]);
      NextSafe(s, c, w.pool.disk.db, Run(s, c, w, acts[..|acts| - 1]), acts[|acts| - 1]);
    }
  }

  lemma NextSafe(s: Schema, c: Case, db: Db, w: World, a: Action)
    requires |w.pool.workers| == P.WORKERS && Safe(s, c, db, w)
    ensures Safe(s, c, db, Next(s, c, w, a))
  {
    hide P.Next, PoolMoves, Hears, Added;
    match a
    case Happens(p) => if !p.event.Charged? { HearsSafe(s, c, db, w, p); }
    case Pools(e, env) =>
      if Allowed(c, e) {
        MovesSafe(s, c, db, w, e);
        if TakesResult(c, w.pool, e) {
          var ok := w.pool.workers[e.worker].done[0].ok;
          if ok {
            ResultTruthful(c, w, e);
            MovesKeepAdd(s, c, w, e);
          }
          HearsSafe(s, c, db, PoolMoves(s, c, w, e), L.Happening(L.Event.Charged(ok), env));
        }
      }
  }

  lemma MovesKeepAdd(s: Schema, c: Case, w: World, e: P.Step)
    requires |w.pool.workers| == P.WORKERS && Added(c, w.trace)
    ensures Added(c, PoolMoves(s, c, w, e).trace)
  {
    AddedStays(c, w.trace, Traced(w.pool, e));
  }

  /** A shard is asked to deliver only an order whose add has been carried out in the database. */
  lemma DeliveryNeedsAdd(s: Schema, c: Case, w: World, acts: seq<Action>, f: L.Effect)
    requires |w.pool.workers| == P.WORKERS && Start(c, w)
    requires T.AsksDelivery(f) && L.Fx(f) in Run(s, c, w, acts).h.log
    ensures Task(c.auth, c.add) in Run(s, c, w, acts).trace
    ensures Run(s, c, w, acts).pool.disk.db == OrderLedger.Run(s, w.pool.disk.db, Run(s, c, w, acts).trace)
  {
    hide Run, Start, P.Good, T.Accounted, T.AsksDelivery, WellFormed, Watched, OrderLedger.Run;
    RunSafe(s, c, w, acts);
    var log := Run(s, c, w, acts).h.log;
    var i :| 0 <= i < |log| && log[i] == L.Fx(f);
    assert L.In(L.Event.Charged(true)) in log[..i];
  }

  /** Once a request has failed with its order, the revert is queued at the worker of the add, and
      behind the add while that still waits; or it has been carried out already. */
  lemma RevertWaitsBehindAdd(s: Schema, c: Case, w: World, acts: seq<Action>)
    requires |w.pool.workers| == P.WORKERS && Start(c, w)
    requires L.Fx(L.Effect.Revert) in Run(s, c, w, acts).h.log
    ensures var z := Run(s, c, w, acts);
            var todo := z.pool.workers[Home(c)].todo;
            && (RevertJob(c) in todo || z.tried)
            && (forall k, m | 0 <= k < |todo| && 0 <= m < |todo| && todo[k] == AddJob(c) && todo[m] == RevertJob(c) :: k < m)
            && (forall i | 0 <= i < P.WORKERS && i != Home(c) ::
                  AddJob(c) !in z.pool.workers[i].todo && RevertJob(c) !in z.pool.workers[i].todo)
  {
    hide Run, Start, P.Good, T.Accounted, T.Paid, WellFormed, Separate, Staged, Sorted, Truthful;
    RunSafe(s, c, w, acts);
    var z := Run(s, c, w, acts);
    QueuedOrder(c, z.pool, z.trace);
  }

  lemma QueuedOrder(c: Case, st: P.State, trace: seq<Task>)
    requires WellFormed(c) && Queued(c, st, trace)
    ensures var todo := st.workers[Home(c)].todo;
            && (forall k, m | 0 <= k < |todo| && 0 <= m < |todo| && todo[k] == AddJob(c) && todo[m] == RevertJob(c) :: k < m)
            && (forall i | 0 <= i < P.WORKERS && i != Home(c) ::
                  AddJob(c) !in st.workers[i].todo && RevertJob(c) !in st.workers[i].todo)
  {
    AddIsNotRevert(c);
    hide WellFormed, AddsOthers;
  }

  /** The add was carried out, and after it the row was saved before any revert of it. */
  ghost predicate Saved(c: Case, trace: seq<Task>, r: Row) {
    exists i :: AddFirst(c, trace, i) && SavedFirst(r, trace[i + 1..])
  }

  /** What the order has left in the books. */
  ghost predicate Remains(s: Schema, c: Case, trace: seq<Task>, left: seq<Row>) {
    if exists i :: AddFirst(c, trace, i) then exists i :: AddFirst(c, trace, i) && left == Leftover(s, c.auth, c.add, trace[i + 1..])
    else left == []
  }

  /** Once any revert of the order has been carried out, of a failed request or of a forgotten one,
      whether the add ran or failed and whatever ran between: the log is what the tasks of all the
      other orders alone have made it exactly if no row of the order was saved before it was
      reverted, and the totals are exactly if what remains is worth nothing.  This takes a
      schema that marks new rows as not saved. */
  lemma Undone(s: Schema, c: Case, w: World, acts: seq<Action>) returns (left: seq<Row>)
    requires |w.pool.workers| == P.WORKERS && Start(c, w) && s.fallback == No
    requires exists t | t in Run(s, c, w, acts).trace :: IsRevert(c, t)
    ensures var z := Run(s, c, w, acts);
            var plain := OrderLedger.Run(s, w.pool.disk.db, Others(c, z.trace));
            && z.pool.disk.db.mtx == plain.mtx
            && (z.pool.disk.db.log == plain.log <==> forall r | r in Rows(s, c.auth, c.add) :: !Saved(c, z.trace, r))
            && Remains(s, c, z.trace, left) && (SameTotals(z.pool.disk.db, plain) <==> Worthless(No, left))
  {
    StartSafe(s, c, w);
    RunSafe(s, c, w, acts);
    hide Run, Start, P.Good, T.Accounted, T.Paid, Truthful;
    var z := Run(s, c, w, acts);
    left := TraceUndone(s, c, w.pool.disk.db, z.pool.workers[Home(c)].todo, z.trace);
  }

  lemma SavedAfter(c: Case, trace: seq<Task>, i: nat, r: Row)
    requires AddFirst(c, trace, i)
    ensures Saved(c, trace, r) <==> SavedFirst(r, trace[i + 1..])
  {
    hide SavedFirst;
    if k: nat :| AddFirst(c, trace, k) && SavedFirst(r, trace[k + 1..]) {
      assert k == i;
    }
  }

  lemma AddedUndone(s: Schema, c: Case, db: Db, trace: seq<Task>, i: nat, j: nat)
    requires WellFormed(c) && s.fallback == No && Fresh(db.log, c.ids) && HasRows(db.inv, db.log)
    requires Separate(c, trace) && AddFirst(c, trace, i) && j < |trace| && IsRevert(c, trace[j])
    ensures var done, plain, left := OrderLedger.Run(s, db, trace), OrderLedger.Run(s, db, Others(c, trace)), Leftover(s, c.auth, c.add, trace[i + 1..]);
            && done.mtx == plain.mtx
            && (done.log == plain.log <==> forall r | r in Rows(s, c.auth, c.add) :: !Saved(c, trace, r))
            && (SameTotals(done, plain) <==> Worthless(No, left))
  {
    AddIsNotRevert(c);
    hide OrderLedger.Run, Others, HasRows, Fresh, Rows, SavedFirst, Worthless, SameTotals, Leftover, Separate, WellFormed, Saved;
    Compensated(s, db, c, trace, i, j);
    forall r | r in Rows(s, c.auth, c.add) ensures Saved(c, trace, r) <==> SavedFirst(r, trace[i + 1..]) {
      SavedAfter(c, trace, i, r);
    }
  }

  lemma NeverUndone(s: Schema, c: Case, db: Db, trace: seq<Task>)
    requires WellFormed(c) && s.fallback == No && Fresh(db.log, c.ids) && HasRows(db.inv, db.log)
    requires Separate(c, trace) && NotAdded(c, trace)
    ensures var done, plain := OrderLedger.Run(s, db, trace), OrderLedger.Run(s, db, Others(c, trace));
            && done.mtx == plain.mtx && done.log == plain.log
            && (SameTotals(done, plain) <==> Worthless(No, []))
    ensures forall r :: !Saved(c, trace, r)
  {
    assert forall i | 0 <= i < |trace| :: trace[i] in trace;
    hide OrderLedger.Run, Others, HasRows, Fresh, Worthless, SameTotals, Separate, WellFormed, NotAdded, AddFirst, Paired;
    NeverAdded(s, db, c, trace);
    PairedAgree(s, OrderLedger.Run(s, db, trace), OrderLedger.Run(s, db, Others(c, trace)), c.auth, c.search, c.ids, []);
  }

  /** How the books end: the conclusion of Undone for one trace. */
  ghost predicate EndsUndone(s: Schema, c: Case, db: Db, trace: seq<Task>, left: seq<Row>) {
    var done, plain := OrderLedger.Run(s, db, trace), OrderLedger.Run(s, db, Others(c, trace));
    && done.mtx == plain.mtx
    && (done.log == plain.log <==> forall r | r in Rows(s, c.auth, c.add) :: !Saved(c, trace, r))
    && Remains(s, c, trace, left) && (SameTotals(done, plain) <==> Worthless(No, left))
  }

  lemma AddedEnds(s: Schema, c: Case, db: Db, trace: seq<Task>, i: nat, j: nat)
    requires WellFormed(c) && s.fallback == No && Fresh(db.log, c.ids) && HasRows(db.inv, db.log)
    requires Separate(c, trace) && AddFirst(c, trace, i) && j < |trace| && IsRevert(c, trace[j])
    ensures EndsUndone(s, c, db, trace, Leftover(s, c.auth, c.add, trace[i + 1..]))
  {
    hide OrderLedger.Run, Others, HasRows, Fresh, Rows, Worthless, SameTotals, Leftover, Separate, WellFormed, Saved, AddFirst;
    AddedUndone(s, c, db, trace, i, j);
  }

  lemma NeverEnds(s: Schema, c: Case, db: Db, trace: seq<Task>)
    requires WellFormed(c) && s.fallback == No && Fresh(db.log, c.ids) && HasRows(db.inv, db.log)
    requires Separate(c, trace) && NotAdded(c, trace)
    ensures EndsUndone(s, c, db, trace, [])
  {
    assert forall i | 0 <= i < |trace| :: trace[i] in trace;
    assert !exists i :: AddFirst(c, trace, i);
    hide OrderLedger.Run, Others, HasRows, Fresh, Rows, Worthless, SameTotals, Separate, WellFormed, Saved, AddFirst, NotAdded;
    NeverUndone(s, c, db, trace);
  }

  lemma TraceUndone(s: Schema, c: Case, db: Db, todo: seq<P.Job>, trace: seq<Task>) returns (left: seq<Row>)
    requires WellFormed(c) && s.fallback == No && Fresh(db.log, c.ids) && HasRows(db.inv, db.log)
    requires Separate(c, trace) && Staged(c, todo, trace) && exists t | t in trace :: IsRevert(c, t)
    ensures EndsUndone(s, c, db, trace, left)
  {
    var t :| t in trace && IsRevert(c, t);
    var j :| 0 <= j < |trace| && trace[j] == t;
    hide HasRows, Fresh, Separate, WellFormed, EndsUndone, IsRevert;
    if i: nat :| AddFirst(c, trace, i) {
      hide AddFirst, Staged;
      AddedEnds(s, c, db, trace, i, j);
      left := Leftover(s, c.auth, c.add, trace[i + 1..]);
    } else {
      assert NotAdded(c, trace);
      hide AddFirst, Staged;
      NeverEnds(s, c, db, trace);
      left := [];
    }
  }

  /** Between its add and its first revert the order is saved as a whole. */
  ghost predicate SavedWhole(c: Case, trace: seq<Task>) {
    exists i :: AddFirst(c, trace, i) && SavedBefore(trace[i + 1..], c.auth, c.search)
  }

  /** For a single order: the totals are those without it exactly if it was not saved between its
      add and its first revert, or moved nothing. */
  lemma SingleUndoneIff(s: Schema, c: Case, w: World, acts: seq<Action>)
    requires |w.pool.workers| == P.WORKERS && Start(c, w) && s.fallback == No && c.add.AddGame?
    requires exists t | t in Run(s, c, w, acts).trace :: IsRevert(c, t)
    ensures var z := Run(s, c, w, acts);
            SameTotals(z.pool.disk.db, OrderLedger.Run(s, w.pool.disk.db, Others(c, z.trace))) <==>
            !Saved(c, z.trace, RowOf(s, c.auth, c.add.item, 0)) || (Capped(s, c.add.item) == 0 && c.add.item.claimed == 0)
  {
    var z := Run(s, c, w, acts);
    var left := Undone(s, c, w, acts);
    RemainsSingle(s, c, z.trace, left);
  }

  lemma RemainsSingle(s: Schema, c: Case, trace: seq<Task>, left: seq<Row>)
    requires WellFormed(c) && c.add.AddGame? && s.fallback == No && Remains(s, c, trace, left)
    requires exists t | t in trace :: IsRevert(c, t)
    ensures Worthless(No, left) <==>
            !Saved(c, trace, RowOf(s, c.auth, c.add.item, 0)) || (Capped(s, c.add.item) == 0 && c.add.item.claimed == 0)
  {
    hide Worthless, Leftover, RowOf, Capped, SavedFirst;
    if i: nat :| AddFirst(c, trace, i) && left == Leftover(s, c.auth, c.add, trace[i + 1..]) {
      RevertAfter(c, trace, i);
      SingleCancelsIff(s, c.auth, c.add.item, trace[i + 1..]);
      SavedAfter(c, trace, i, RowOf(s, c.auth, c.add.item, 0));
    } else {
      NothingWorthless(No);
    }
  }

  lemma RevertAfter(c: Case, trace: seq<Task>, i: nat)
    requires WellFormed(c) && AddFirst(c, trace, i) && exists t | t in trace :: IsRevert(c, t)
    ensures Task(c.auth, Revert(c.search)) in trace[i + 1..]
  {
    AddIsNotRevert(c);
    var t :| t in trace && IsRevert(c, t);
    var j :| 0 <= j < |trace| && trace[j] == t;
    assert trace[i + 1..][j - i - 1] == t;
  }

  /** For any order that its account saves and reverts as a whole: exactly if it was not saved between
      its add and its first revert, or is worth nothing when saved. */
  lemma WholeUndoneIff(s: Schema, c: Case, w: World, acts: seq<Action>)
    requires |w.pool.workers| == P.WORKERS && Start(c, w) && s.fallback == No
    requires exists t | t in Run(s, c, w, acts).trace :: IsRevert(c, t)
    requires AsWhole(Run(s, c, w, acts).trace, c.auth, c.search, c.ids)
    ensures var z := Run(s, c, w, acts);
            var plain := OrderLedger.Run(s, w.pool.disk.db, Others(c, z.trace));
            && (z.pool.disk.db.log == plain.log <==> !SavedWhole(c, z.trace) || Rows(s, c.auth, c.add) == [])
            && (SameTotals(z.pool.disk.db, plain) <==> !SavedWhole(c, z.trace) || Worthless(No, Marked(Rows(s, c.auth, c.add))))
  {
    var z := Run(s, c, w, acts);
    var left := Undone(s, c, w, acts);
    RemainsWhole(s, c, z.trace, left);
  }

  lemma SavedWholeAfter(c: Case, trace: seq<Task>, i: nat)
    requires AddFirst(c, trace, i)
    ensures SavedWhole(c, trace) <==> SavedBefore(trace[i + 1..], c.auth, c.search)
  {
    hide SavedBefore;
    if k: nat :| AddFirst(c, trace, k) && SavedBefore(trace[k + 1..], c.auth, c.search) {
      assert k == i;
    }
  }

  /** In such a trace the rows are saved exactly if the order is. */
  lemma RowsSaved(s: Schema, c: Case, trace: seq<Task>, i: nat)
    requires WellFormed(c) && AddFirst(c, trace, i) && AsWhole(trace[i + 1..], c.auth, c.search, c.ids)
    ensures forall r | r in Rows(s, c.auth, c.add) :: Saved(c, trace, r) <==> SavedWhole(c, trace)
  {
    RowsAre(s, c.auth, c.add, c.search, c.ids);
    SavedWholeAfter(c, trace, i);
    hide Rows, SavedBefore, SavedFirst, AsWhole, AddFirst, Saved, SavedWhole;
    forall r | r in Rows(s, c.auth, c.add) ensures Saved(c, trace, r) <==> SavedWhole(c, trace) {
      SavedAfter(c, trace, i, r);
      assert RowsOf([r], c.auth, c.search, c.ids);
      SavedFirstWhole(r, trace[i + 1..], c.auth, c.search, c.ids);
    }
  }

  lemma RemainsWhole(s: Schema, c: Case, trace: seq<Task>, left: seq<Row>)
    requires WellFormed(c) && s.fallback == No && Remains(s, c, trace, left)
    requires (exists t | t in trace :: IsRevert(c, t)) && AsWhole(trace, c.auth, c.search, c.ids)
    ensures (forall r | r in Rows(s, c.auth, c.add) :: !Saved(c, trace, r)) <==> !SavedWhole(c, trace) || Rows(s, c.auth, c.add) == []
    ensures Worthless(No, left) <==> !SavedWhole(c, trace) || Worthless(No, Marked(Rows(s, c.auth, c.add)))
  {
    var rows := Rows(s, c.auth, c.add);
    assert rows == [] || rows[0] in rows;
    hide Worthless, Leftover, Rows, Marked, SavedBefore, SavedFirst;
    if i: nat :| AddFirst(c, trace, i) && left == Leftover(s, c.auth, c.add, trace[i + 1..]) {
      assert forall t | t in trace[i + 1..] :: t in trace;
      RevertAfter(c, trace, i);
      RowsSaved(s, c, trace, i);
      SavedWholeAfter(c, trace, i);
      hide Saved, SavedWhole, AddFirst, WellFormed;
      WholeCancelsIff(s, c.auth, c.add, trace[i + 1..], c.search, c.ids) by { assert WellFormed(c); }
    } else {
      NothingWorthless(No);
    }
  }

  // ---------------------------------------------------------------------
  //  Such runs exist
  // ---------------------------------------------------------------------

  lemma PoolPossible(s: Schema, auth: nat) returns (st: P.State)
    requires auth != 0
    ensures P.Good(st) && auth in st.accounts && st.disk.db == Db([], [], map[])
    ensures |st.workers| == P.WORKERS
    ensures forall i | 0 <= i < P.WORKERS :: st.workers[i] == P.Worker(if i == auth % P.WORKERS then [P.Load(auth)] else [], [])
    ensures st.inFlight == 1 && st.disk.db == Db([], [], map[])
  {
    var idle := P.State(seq(P.WORKERS, i => P.Worker([], [])), 0, map[], P.Disk(Db([], [], map[]), map[]));
    var steps := [P.Know(auth)];
    assert steps[..0] == [];
    P.RunGood(s, idle, steps);
    hide P.Good, P.Start;
    st := P.Run(s, idle, steps);
    assert P.Run(s, idle, []) == idle;
    assert st == P.Next(s, idle, P.Know(auth));
  }

  /** The world in which a certification order has just been started. */
  function Begun(c: Case, st: P.State): World
    requires |st.workers| == P.WORKERS
  {
    World(L.History(L.Begin(L.Certification, c.search, false, L.Env(0, true, true)).r, L.Items([L.Submit])),
          P.Push(st, AddJob(c)), [], false)
  }

  lemma BegunStarts(c: Case, st: P.State)
    requires WellFormed(c) && P.Good(st) && c.auth in st.accounts && Untouched(c, st)
    requires Fresh(st.disk.db.log, c.ids) && HasRows(st.disk.db.inv, st.disk.db.log)
    ensures Start(c, Begun(c, st)) && |Begun(c, st).pool.workers| == P.WORKERS
  {
    assert L.Begin(L.Certification, c.search, false, L.Env(0, true, true)).fx == [L.Submit];
    hide P.Good, HasRows, Fresh, WellFormed, Foreign, L.Begin, L.Items;
    PushAppends(st, AddJob(c));
    hide P.Push;
  }

  lemma DueFails(kind: L.Kind, order: nat, byVip: bool, begun: L.Env, env: L.Env)
    requires order != 0
    ensures L.Step1(L.Begin(kind, order, byVip, begun).r, L.Due, env).fx == [L.Effect.Revert, L.Notify(false)]
  {
    var r := L.Begin(kind, order, byVip, begun).r;
    assert r.phase == L.Charge && !r.completed && r.place.Active? && r.order == order;
    assert L.StateCharge(r, true).fx == [L.Effect.Revert, L.Notify(false)];
  }

  lemma DueReverts(c: Case, w: World, env: L.Env)
    requires |w.pool.workers| == P.WORKERS && Start(c, w)
    ensures L.Step1(w.h.r, L.Due, env).fx == [L.Effect.Revert, L.Notify(false)]
  {
    StartHistory(c, w);
    assert c.search != 0;
    hide P.Good, HasRows, Untouched, Fresh, L.Step1, L.Items, P.Push, WellFormed, T.Accounted;
    var kind, byVip, begun :|
      L.Begin(kind, c.search, byVip, begun).fx == [L.Submit]
      && w.h == L.History(L.Begin(kind, c.search, byVip, begun).r, L.Items([L.Submit]));
    hide Start, L.Begin;
    DueFails(kind, c.search, byVip, begun, env);
  }

  lemma AddWaits(c: Case, w: World)
    requires |w.pool.workers| == P.WORKERS && Start(c, w)
    ensures AddJob(c) in w.pool.workers[Home(c)].todo
  {
    hide P.Good, WellFormed, Fresh, L.Begin, L.Items;
    var st :| P.Good(st) && c.auth in st.accounts && Untouched(c, st)
         && Fresh(st.disk.db.log, c.ids) && HasRows(st.disk.db.inv, st.disk.db.log) && w.pool == P.Push(st, AddJob(c));
    hide Start;
    PushAppends(st, AddJob(c));
  }

  lemma BothPushed(c: Case, st: P.State)
    requires |st.workers| == P.WORKERS && AddJob(c) in st.workers[Home(c)].todo
    ensures var todo := PushAll(st, JobsOf(c, [L.Effect.Revert, L.Notify(false)])).workers[Home(c)].todo;
            AddJob(c) in todo && RevertJob(c) in todo
  {
    assert [L.Effect.Revert, L.Notify(false)][..1] == [L.Effect.Revert];
    assert [L.Effect.Revert][..0] == [];
    assert JobsOf(c, [L.Effect.Revert]) == [RevertJob(c)];
    assert PushAll(st, [RevertJob(c)]) == P.Push(st, RevertJob(c));
    PushAppends(st, RevertJob(c));
  }

  /** And its charge can time out while its add still waits: then both wait, one behind the other. */
  lemma TimesOutWhileAddWaits(s: Schema, c: Case, w: World) returns (acts: seq<Action>)
    requires |w.pool.workers| == P.WORKERS && Start(c, w)
    ensures L.Fx(L.Effect.Revert) in Run(s, c, w, acts).h.log
    ensures var todo := Run(s, c, w, acts).pool.workers[Home(c)].todo; AddJob(c) in todo && RevertJob(c) in todo
  {
    var p := L.Happening(L.Due, L.Env(L.CHARGE_TIMEOUT, true, true));
    acts := [Happens(p)];
    assert acts[..0] == [];
    DueReverts(c, w, p.env);
    AddWaits(c, w);
    BothPushed(c, w.pool);
    hide Start, PushAll, JobsOf, L.Step1;
    assert Run(s, c, w, []) == w;
    assert Run(s, c, w, acts) == Next(s, c, w, Happens(p));
    var fx := L.Step1(w.h.r, L.Due, p.env).fx;
    assert L.Items(fx)[0] == L.Fx(L.Effect.Revert);
  }

  // --- a run in which a revert comes too late ------------------------------

  /** The worker of the order has these jobs waiting, and these carried out well and not taken. */
  ghost predicate Stands(c: Case, w: World, todo: seq<P.Job>, done: seq<P.Job>, trace: seq<Task>) {
    && |w.pool.workers| == P.WORKERS && c.auth in w.pool.accounts
    && w.pool.workers[Home(c)].todo == todo && |w.pool.workers[Home(c)].done| == |done|
    && (forall k | 0 <= k < |done| :: w.pool.workers[Home(c)].done[k].job == done[k] && w.pool.workers[Home(c)].done[k].ok)
    && w.pool.inFlight >= |todo| + |done| && w.trace == trace
  }

  function Turn(c: Case): Action {
    Pools(P.Execute(Home(c), true), L.Env(0, true, true))
  }

  lemma TurnStands(s: Schema, c: Case, w: World, todo: seq<P.Job>, done: seq<P.Job>, trace: seq<Task>)
    requires Stands(c, w, todo, done, trace) && todo != []
    ensures var z, j := Next(s, c, w, Turn(c)), todo[0];
            Stands(c, z, todo[1..], done + [j], trace + (if j.Order? then [TaskOf(j)] else [])) && z.h == w.h
  {
    assert trace + [] == trace;
    hide Exec, View, P.Absorb;
  }

  lemma FinishStands(s: Schema, c: Case, w: World, todo: seq<P.Job>, done: seq<P.Job>, trace: seq<Task>, env: L.Env)
    requires Stands(c, w, todo, done, trace) && done != [] && !done[0].Search? && done[0].auth == c.auth
    ensures var z := PoolMoves(s, c, w, P.Finish(Home(c)));
            Stands(c, z, todo, done[1..], trace) && z.h == w.h
    ensures TakesResult(c, w.pool, P.Finish(Home(c))) <==> done[0] == AddJob(c)
    ensures Next(s, c, w, Pools(P.Finish(Home(c)), env)) ==
            if done[0] == AddJob(c) then Hears(c, PoolMoves(s, c, w, P.Finish(Home(c))), L.Happening(L.Event.Charged(true), env))
            else PoolMoves(s, c, w, P.Finish(Home(c)))
  {
    assert trace + [] == trace;
    var d := w.pool.workers[Home(c)].done[0];
    assert d.job == done[0] && d.ok;
    hide P.Absorb, Hears;
  }

  lemma PushStands(c: Case, w: World, todo: seq<P.Job>, done: seq<P.Job>, trace: seq<Task>, j: P.Job)
    requires Stands(c, w, todo, done, trace) && P.Home(j) == Home(c)
    ensures Stands(c, w.(pool := P.Push(w.pool, j)), todo + [j], done, trace)
  {
  }

  /** The request hears of something and pushes nothing, or its revert. */
  lemma HearsStands(c: Case, w: World, todo: seq<P.Job>, done: seq<P.Job>, trace: seq<Task>, p: L.Happening)
    requires Stands(c, w, todo, done, trace)
    requires var fx := L.Step1(w.h.r, p.event, p.env).fx; fx == [L.AskFulfill] || fx == [L.Effect.Revert, L.Notify(false)]
    ensures var z, failed := Hears(c, w, p), L.Step1(w.h.r, p.event, p.env).fx != [L.AskFulfill];
            && Stands(c, z, todo + (if failed then [RevertJob(c)] else []), done, trace)
            && z.h == L.Advance(w.h, p) && (failed ==> L.Fx(L.Effect.Revert) in z.h.log)
  {
    var fx := L.Step1(w.h.r, p.event, p.env).fx;
    assert [L.AskFulfill][..0] == [] && [L.Effect.Revert, L.Notify(false)][..1] == [L.Effect.Revert] && [L.Effect.Revert][..0] == [];
    assert todo + [] == todo;
    hide L.Step1, P.Push, Stands;
    if fx == [L.AskFulfill] {
      assert JobsOf(c, fx) == [];
      assert w.(pool := PushAll(w.pool, [])) == w;
    } else {
      assert JobsOf(c, [L.Effect.Revert]) == [RevertJob(c)];
      assert JobsOf(c, fx) == [RevertJob(c)];
      assert PushAll(w.pool, [RevertJob(c)]) == P.Push(w.pool, RevertJob(c)) by { assert [RevertJob(c)][..0] == []; }
      PushStands(c, w, todo, done, trace, RevertJob(c));
      assert L.Items(fx)[0] == L.Fx(L.Effect.Revert);
    }
    StandsLog(c, w, Hears(c, w, p), todo + (if fx == [L.AskFulfill] then [] else [RevertJob(c)]), done, trace);
  }

  lemma StandsLog(c: Case, w: World, z: World, todo: seq<P.Job>, done: seq<P.Job>, trace: seq<Task>)
    requires Stands(c, w.(pool := z.pool), todo, done, trace) && z.trace == w.trace
    ensures Stands(c, z, todo, done, trace)
  {
  }

  lemma {:induction false} RunMore(s: Schema, c: Case, w: World, acts: seq<Action>, a: Action)
    requires |w.pool.workers| == P.WORKERS
    ensures Run(s, c, w, acts + [a]) == Next(s, c, Run(s, c, w, acts), a)
  {
    assert (acts + [a])[..|acts|] == acts;
  }

  const ASKED := L.Env(1000, true, true)
  const LINK_DOWN := L.Env(1400, false, true)

  lemma ChargedThenLost(order: nat)
    requires order != 0
    ensures var r := L.Begin(L.Certification, order, false, L.Env(0, true, true)).r;
            var asked := L.Step1(r, L.Event.Charged(true), ASKED);
            asked.fx == [L.AskFulfill] && L.Step1(asked.r, L.Due, LINK_DOWN).fx == [L.Effect.Revert, L.Notify(false)]
  {
  }

  /** The add is carried out and the shard is asked to deliver. */
  lemma RunsToDelivery(s: Schema, c: Case, w: World) returns (acts: seq<Action>)
    requires WellFormed(c) && |w.pool.workers| == P.WORKERS && Stands(c, w, [P.Load(c.auth), AddJob(c)], [], [])
    requires L.Step1(w.h.r, L.Event.Charged(true), ASKED).fx == [L.AskFulfill]
    ensures var z := Run(s, c, w, acts);
            Stands(c, z, [], [], [TaskOf(AddJob(c))]) && z.h.r == L.Step1(w.h.r, L.Event.Charged(true), ASKED).r
  {
    var finish := Pools(P.Finish(Home(c)), ASKED);
    acts := [Turn(c), Turn(c), finish, finish];
    var add := AddJob(c);
    var load := P.Load(c.auth);
    assert [load, add][1..] == [add] && [add][1..] == [] && [load] + [add] == [load, add] && [] + [load] == [load];
    assert [] + [TaskOf(add)] == [TaskOf(add)] && TaskOf(add) == Task(c.auth, c.add);
    hide Stands, Next, L.Step1, Hears, PoolMoves, TaskOf;
    TurnStands(s, c, w, [P.Load(c.auth), add], [], []);
    var w1 := Next(s, c, w, Turn(c));
    TurnStands(s, c, w1, [add], [P.Load(c.auth)], []);
    var w2 := Next(s, c, w1, Turn(c));
    FinishStands(s, c, w2, [], [P.Load(c.auth), add], [TaskOf(add)], ASKED);
    var w3 := Next(s, c, w2, finish);
    FinishStands(s, c, w3, [], [add], [TaskOf(add)], ASKED);
    var w4 := PoolMoves(s, c, w3, P.Finish(Home(c)));
    HearsStands(c, w4, [], [], [TaskOf(add)], L.Happening(L.Event.Charged(true), ASKED));
    RunFour(s, c, w, acts);
  }

  lemma RunFour(s: Schema, c: Case, w: World, acts: seq<Action>)
    requires |w.pool.workers| == P.WORKERS && |acts| == 4
    ensures Run(s, c, w, acts) == Next(s, c, Next(s, c, Next(s, c, Next(s, c, w, acts[0]), acts[1]), acts[2]), acts[3])
  {
    hide Next;
    assert acts == (([] + [acts[0]]) + [acts[1]] + [acts[2]]) + [acts[3]];
    RunMore(s, c, w, [], acts[0]);
    RunMore(s, c, w, [] + [acts[0]], acts[1]);
    RunMore(s, c, w, [] + [acts[0]] + [acts[1]], acts[2]);
    RunMore(s, c, w, [] + [acts[0]] + [acts[1]] + [acts[2]], acts[3]);
  }

  /** The shard has the order marked as saved, its link is down at the next visit, and the order fails. */
  lemma RunsToFailure(s: Schema, c: Case, w: World, trace: seq<Task>) returns (z: World)
    requires WellFormed(c) && |w.pool.workers| == P.WORKERS && Stands(c, w, [], [], trace)
    requires L.Step1(w.h.r, L.Due, LINK_DOWN).fx == [L.Effect.Revert, L.Notify(false)]
    ensures z == Next(s, c, Next(s, c, w, Pools(P.Submit(c.auth, OrderLedger.Save(c.search)), LINK_DOWN)),
                      Happens(L.Happening(L.Due, LINK_DOWN)))
    ensures |z.pool.workers| == P.WORKERS && Stands(c, z, [SaveJob(c), RevertJob(c)], [], trace) && L.Fx(L.Effect.Revert) in z.h.log
  {
    var due := L.Happening(L.Due, LINK_DOWN);
    assert [SaveJob(c)] + [RevertJob(c)] == [SaveJob(c), RevertJob(c)];
    hide Stands, L.Step1, Hears, Next, WellFormed, PushAll, SaveJob, RevertJob;
    SubmitStands(s, c, w, trace, LINK_DOWN);
    var w1 := Next(s, c, w, Pools(P.Submit(c.auth, OrderLedger.Save(c.search)), LINK_DOWN));
    HearsStands(c, w1, [SaveJob(c)], [], trace, due);
    NextHears(s, c, w1, due);
    z := Next(s, c, w1, Happens(due));
  }

  /** Both are carried out. */
  lemma RunsTurns(s: Schema, c: Case, w: World, trace: seq<Task>, a: P.Job, b: P.Job)
    requires |w.pool.workers| == P.WORKERS && Stands(c, w, [a, b], [], trace) && a.Order? && b.Order?
    ensures var z := Next(s, c, Next(s, c, w, Turn(c)), Turn(c));
            Stands(c, z, [], [a, b], trace + [TaskOf(a)] + [TaskOf(b)]) && z.h == w.h
  {
    assert [a, b][1..] == [b] && [b][1..] == [] && [] + [a] == [a] && [a] + [b] == [a, b];
    hide Stands, Next, TaskOf;
    TurnStands(s, c, w, [a, b], [], trace);
    TurnStands(s, c, Next(s, c, w, Turn(c)), [b], [a], trace + [TaskOf(a)]);
  }

  lemma RunsToRevert(s: Schema, c: Case, w: World) returns (acts: seq<Action>)
    requires WellFormed(c) && |w.pool.workers| == P.WORKERS && Stands(c, w, [], [], [TaskOf(AddJob(c))])
    requires L.Step1(w.h.r, L.Due, LINK_DOWN).fx == [L.Effect.Revert, L.Notify(false)]
    ensures var z := Run(s, c, w, acts);
            && Stands(c, z, [], [SaveJob(c), RevertJob(c)], [TaskOf(AddJob(c)), TaskOf(SaveJob(c)), TaskOf(RevertJob(c))])
            && L.Fx(L.Effect.Revert) in z.h.log
  {
    acts := [Pools(P.Submit(c.auth, OrderLedger.Save(c.search)), LINK_DOWN), Happens(L.Happening(L.Due, LINK_DOWN)), Turn(c), Turn(c)];
    hide Stands, Next, L.Step1, WellFormed, TaskOf;
    var z := RunsToFailure(s, c, w, [TaskOf(AddJob(c))]);
    RunsTurns(s, c, z, [TaskOf(AddJob(c))], SaveJob(c), RevertJob(c));
    RunFour(s, c, w, acts);
    assert [TaskOf(AddJob(c))] + [TaskOf(SaveJob(c))] + [TaskOf(RevertJob(c))] == [TaskOf(AddJob(c)), TaskOf(SaveJob(c)), TaskOf(RevertJob(c))];
  }

  lemma NextHears(s: Schema, c: Case, w: World, p: L.Happening)
    requires |w.pool.workers| == P.WORKERS && !p.event.Charged?
    ensures Next(s, c, w, Happens(p)) == Hears(c, w, p)
  {
  }

  lemma SubmitStands(s: Schema, c: Case, w: World, trace: seq<Task>, env: L.Env)
    requires WellFormed(c) && Stands(c, w, [], [], trace)
    ensures var z := Next(s, c, w, Pools(P.Submit(c.auth, OrderLedger.Save(c.search)), env));
            Stands(c, z, [SaveJob(c)], [], trace) && z.h == w.h
  {
    assert trace + [] == trace && [] + [SaveJob(c)] == [SaveJob(c)];
    assert Allowed(c, P.Submit(c.auth, OrderLedger.Save(c.search)));
    PushStands(c, w, [], [], trace, SaveJob(c));
  }

  lemma {:induction false} RunRuns(s: Schema, c: Case, w: World, a: seq<Action>, b: seq<Action>)
    requires |w.pool.workers| == P.WORKERS
    ensures Run(s, c, w, a + b) == Run(s, c, Run(s, c, w, a), b)
  {
    hide Next;
    if b == [] {
      assert a + b == a;
    } else {
      RunRuns(s, c, w, a, b[..|b| - 1]);
      assert (a + b)[..|a + b| - 1] == a + b[..|b| - 1];
    }
  }

  lemma BegunStands(c: Case, st: P.State)
    requires |st.workers| == P.WORKERS && c.auth in st.accounts && st.inFlight >= 1
    requires st.workers[Home(c)] == P.Worker([P.Load(c.auth)], [])
    ensures Stands(c, Begun(c, st), [P.Load(c.auth), AddJob(c)], [], [])
    ensures Begun(c, st).h.r == L.Begin(L.Certification, c.search, false, L.Env(0, true, true)).r
  {
    assert [P.Load(c.auth)] + [AddJob(c)] == [P.Load(c.auth), AddJob(c)];
    hide L.Begin, L.Items;
  }

  lemma StandsTrace(c: Case, w: World, todo: seq<P.Job>, done: seq<P.Job>, trace: seq<Task>)
    requires Stands(c, w, todo, done, trace)
    ensures w.trace == trace
  {
  }

  lemma LateRevert(c: Case, trace: seq<Task>)
    requires WellFormed(c)
    requires trace == [Task(c.auth, c.add), Task(c.auth, OrderLedger.Save(c.search)), Task(c.auth, Revert(c.search))]
    ensures SavedWhole(c, trace) && AsWhole(trace, c.auth, c.search, c.ids) && Others(c, trace) == []
    ensures exists t | t in trace :: IsRevert(c, t)
  {
    assert c.search in c.ids;
    assert trace[1..][0] == Task(c.auth, OrderLedger.Save(c.search)) && trace[1..][..0] == [];
    assert SavedBefore(trace[1..], c.auth, c.search);
    assert AddFirst(c, trace, 0);
    assert IsRevert(c, trace[2]) && trace[2] in trace;
    assert trace[..2] == [trace[0], trace[1]] && trace[..2][..1] == [trace[0]] && [trace[0]][..0] == [];
    assert Others(c, trace[..2][..1]) == [];
    assert Others(c, trace[..2]) == [];
  }

  lemma BegunPossible(s: Schema, c: Case) returns (w: World)
    requires WellFormed(c) && c.auth != 0
    ensures |w.pool.workers| == P.WORKERS && Start(c, w) && w.pool.disk.db.log == [] && c.search != 0
    ensures Stands(c, w, [P.Load(c.auth), AddJob(c)], [], [])
    ensures w.h.r == L.Begin(L.Certification, c.search, false, L.Env(0, true, true)).r
  {
    var st := PoolPossible(s, c.auth);
    assert c.search in c.ids;
    hide P.Good, Start, WellFormed, Stands, L.Begin, P.Push, L.Items;
    BegunStarts(c, st);
    BegunStands(c, st);
    w := Begun(c, st);
    assert w.pool.disk == st.disk by { PushDisk(st, AddJob(c)); }
  }

  /** An order can be started for any account on a fresh server. */
  lemma StartPossible(s: Schema, c: Case) returns (w: World)
    requires WellFormed(c) && c.auth != 0
    ensures |w.pool.workers| == P.WORKERS && Start(c, w)
  {
    hide Start, WellFormed, Stands;
    w := BegunPossible(s, c);
  }

  lemma PushDisk(st: P.State, j: P.Job)
    requires |st.workers| == P.WORKERS
    ensures P.Push(st, j).disk == st.disk
  {
  }

  /** A revert can come too late.  The order is delivered and marked as saved, its finish packet does
      not arrive, the link is down at the next visit and the order fails: its revert finds every row
      saved, and the order of a failed request keeps its effect. */
  lemma SavedThenReverted(s: Schema, c: Case) returns (w: World, acts: seq<Action>)
    requires WellFormed(c) && c.auth != 0 && s.fallback == No
    ensures |w.pool.workers| == P.WORKERS && Start(c, w)
    ensures var z := Run(s, c, w, acts);
            && L.Fx(L.Effect.Revert) in z.h.log
            && z.trace == [Task(c.auth, c.add), Task(c.auth, OrderLedger.Save(c.search)), Task(c.auth, Revert(c.search))]
            && SavedWhole(c, z.trace) && w.pool.disk.db.log == []
            && (z.pool.disk.db.log == [] <==> Rows(s, c.auth, c.add) == [])
  {
    hide P.Good, Start, L.Step1, L.Begin, Run, Stands, Others, SavedWhole, AsWhole, Rows, WellFormed;
    w := BegunPossible(s, c);
    ChargedThenLost(c.search);
    var first := RunsToDelivery(s, c, w);
    var more := RunsToRevert(s, c, Run(s, c, w, first));
    acts := first + more;
    RunRuns(s, c, w, first, more);
    var z := Run(s, c, w, acts);
    StandsTrace(c, z, [], [SaveJob(c), RevertJob(c)], [TaskOf(AddJob(c)), TaskOf(SaveJob(c)), TaskOf(RevertJob(c))]);
    LateRevert(c, z.trace);
    WholeUndoneIff(s, c, w, acts);
  }
}

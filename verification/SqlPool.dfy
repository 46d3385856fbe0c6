/**
 The account server's asynchronous SQL back end as a state machine: one queue of jobs
 and one queue of results per worker, the accounts' caches, and the database.  The
 workers run on their own; a step of the machine is one call of the server's thread, or
 one job that a worker carries out, well or badly.
 */
module SqlPool {
  import opened OrderLedger

  const WORKERS := 64

  /** The account row: the loyalty bits, and the fields that a commit copies.  Both are
      version stamps, raised by every change. */
  datatype Card = Card(bits: nat, counters: nat)

  datatype Job =
    | Load(auth: nat)
    | Update(auth: nat, card: Card)
    | Order(auth: nat, op: Op)
    | ReadUnsaved(auth: nat)
    | Search(worker: nat)

  /** A finished job: its inventory rows, or for a load the account's whole row and inventory. */
  datatype Done = Done(job: Job, ok: bool, rows: seq<InvRow>, inv: map<nat, Totals>, card: Card)

  datatype Worker = Worker(todo: seq<Job>, done: seq<Done>)

  /** `kept` is the server's copy of the account row: the bits live there, the other fields
      are copied into it by a commit. */
  datatype Account = Account(loaded: bool, cache: map<nat, Totals>, dirty: bool, kept: Card, counters: nat)

  datatype Disk = Disk(db: Db, cards: map<nat, Card>)

  datatype State = State(workers: seq<Worker>, inFlight: nat, accounts: map<nat, Account>, disk: Disk)

  datatype Step =
    | Know(auth: nat)                                // look an account up, or start loading it
    | Submit(auth: nat, op: Op)
    | Recall(auth: nat)                              // ask for the unsaved orders
    | Look(worker: nat)                              // search by name: any worker will do
    | Change(auth: nat, bits: nat, counters: nat)    // and mark the account row dirty
    | Commit(auth: nat)
    | Execute(worker: nat, ok: bool)                 // a worker carries out its next job
    | Finish(worker: nat)                            // the server takes a worker's next result

  function Home(j: Job): nat {
    if j.Search? then j.worker % WORKERS else j.auth % WORKERS
  }

  function Current(acc: Account): Card {
    Card(acc.kept.bits, acc.counters)
  }

  // ---------------------------------------------------------------------
  //  The steps
  // ---------------------------------------------------------------------

  function Push(st: State, j: Job): State
    requires |st.workers| == WORKERS
  {
    var w := st.workers[Home(j)];
    st.(workers := st.workers[Home(j) := w.(todo := w.todo + [j])], inFlight := st.inFlight + 1)
  }

  datatype Outcome = Outcome(disk: Disk, done: Done)

  /** A job carried out.  One that fails leaves the database as it was. */
  function Carry(s: Schema, disk: Disk, j: Job, ok: bool): Outcome {
    var blank := Done(j, ok, [], map[], Card(0, 0));
    if !ok then Outcome(disk, blank)
    else
      match j
      case Load(a) =>
        var cards := if a in disk.cards then disk.cards else disk.cards[a := Card(0, 0)];
        Outcome(disk.(cards := cards), blank.(inv := View(disk.db, a), card := cards[a]))
      case Update(a, card) =>
        Outcome(disk.(cards := if a in disk.cards then disk.cards[a := card] else disk.cards), blank)
      case Order(a, op) =>
        var r := Exec(s, disk.db, a, op);
        Outcome(disk.(db := r.db), blank.(rows := r.rows))
      case _ => Outcome(disk, blank)
  }

  function WorkerRuns(s: Schema, st: State, i: nat, ok: bool): State
    requires i < |st.workers| && st.workers[i].todo != []
  {
    var w := st.workers[i];
    var out := Carry(s, st.disk, w.todo[0], ok);
    st.(workers := st.workers[i := Worker(w.todo[1..], w.done + [out.done])], disk := out.disk)
  }

  /** What a result does to its account. */
  function Absorb(acc: Account, d: Done): Account {
    if !d.ok then acc
    else
      match d.job
      case Load(_) => acc.(loaded := true, cache := d.inv, kept := d.card, counters := d.card.counters)
      case Order(_, _) => acc.(cache := Overlay(acc.cache, d.rows))
      case _ => acc
  }

  function FinishOne(st: State, i: nat): State
    requires |st.workers| == WORKERS && i < WORKERS && st.workers[i].done != [] && st.inFlight > 0
  {
    var w := st.workers[i];
    var d := w.done[0];
    var st' := st.(workers := st.workers[i := w.(done := w.done[1..])], inFlight := st.inFlight - 1);
    if d.job.Search? || d.job.auth !in st.accounts then st'
    else
      var a := d.job.auth;
      var st'' := st'.(accounts := st.accounts[a := Absorb(st.accounts[a], d)]);
      if d.ok then st''
      else if d.job.Load? then Push(st'', d.job)
      else if d.job.Update? then Push(st'', Update(a, st.accounts[a].kept))
      else st''
  }

  function Next(s: Schema, st: State, e: Step): State
    requires |st.workers| == WORKERS
  {
    match e
    case Know(a) =>
      if a in st.accounts || a == 0 then st
      else Push(st.(accounts := st.accounts[a := Account(false, map[], false, Card(0, 0), 0)]), Load(a))
    case Submit(a, op) => if a in st.accounts then Push(st, Order(a, op)) else st
    case Recall(a) => if a in st.accounts then Push(st, ReadUnsaved(a)) else st
    case Look(w) => Push(st, Search(w))
    case Change(a, bits, counters) =>
      if a in st.accounts && st.accounts[a].loaded && st.accounts[a].kept.bits <= bits && st.accounts[a].counters <= counters
      then st.(accounts := st.accounts[a := st.accounts[a].(dirty := true, kept := st.accounts[a].kept.(bits := bits), counters := counters)])
      else st
    case Commit(a) =>
      if a in st.accounts && st.accounts[a].dirty then
        var acc := st.accounts[a];
        Push(st.(accounts := st.accounts[a := acc.(dirty := false, kept := Current(acc))]), Update(a, Current(acc)))
      else st
    case Execute(i, ok) => if i < WORKERS && st.workers[i].todo != [] then WorkerRuns(s, st, i, ok) else st
    case Finish(i) => if i < WORKERS && st.workers[i].done != [] && st.inFlight > 0 then FinishOne(st, i) else st
  }

  // ---------------------------------------------------------------------
  //  One account and its worker
  // ---------------------------------------------------------------------

  /** All that a worker still owes, the oldest first. */
  function Line(w: Worker): seq<Job> {
    Jobs(w.done) + w.todo
  }

  function Jobs(done: seq<Done>): seq<Job> {
    seq(|done|, i requires 0 <= i < |done| => done[i].job)
  }

  /** The account's inventory as far as the server can know it. */
  datatype Known = Unseen | Seen(inv: map<nat, Totals>)

  function Learn(k: Known, d: Done, a: nat): Known {
    if !d.ok then k
    else if d.job == Load(a) then Seen(d.inv)
    else if d.job.Order? && d.job.auth == a && k.Seen? then Seen(Overlay(k.inv, d.rows))
    else k
  }

  /** What the server will know once it has finished these results. */
  function Replay(k: Known, done: seq<Done>, a: nat): Known {
    if done == [] then k else Learn(Replay(k, done[..|done| - 1], a), done[|done| - 1], a)
  }

  /** Where the account row's newest update has got to. */
  datatype Plan = Idle | Pending(card: Card) | Landed(card: Card) | Lost

  function PlanDone(done: seq<Done>, a: nat): Plan {
    if done == [] then Idle
    else
      var d := done[|done| - 1];
      if d.job.Update? && d.job.auth == a then (if d.ok then Landed(d.job.card) else Lost)
      else PlanDone(done[..|done| - 1], a)
  }

  function PlanOf(w: Worker, a: nat): Plan
    decreases w.todo
  {
    if w.todo == [] then PlanDone(w.done, a)
    else
      var j := w.todo[|w.todo| - 1];
      if j.Update? && j.auth == a then Pending(j.card)
      else PlanOf(w.(todo := w.todo[..|w.todo| - 1]), a)
  }

  predicate AtMost(c: Card, c': Card) {
    c.bits <= c'.bits && c.counters <= c'.counters
  }

  /** The cache, brought up to date with the results that wait, is the database's inventory. */
  ghost predicate Agrees(a: nat, acc: Account, w: Worker, disk: Disk) {
    var k := Replay(if acc.loaded then Seen(acc.cache) else Unseen, w.done, a);
    k.Seen? ==> k.inv == View(disk.db, a)
  }

  /** One load is on its way until the account is loaded, and then none. */
  ghost predicate LoadsOnce(a: nat, acc: Account, w: Worker, disk: Disk) {
    && multiset(Line(w))[Load(a)] == (if acc.loaded then 0 else 1)
    && (!acc.loaded ==> !acc.dirty && forall j | j in Line(w) :: !(j.Update? && j.auth == a))
    && (acc.loaded ==> a in disk.cards)
    && (forall d | d in w.done && d.job == Load(a) && d.ok :: a in disk.cards && d.card == disk.cards[a])
  }

  /** While the row is clean, its newest version is on disk or on its way there. */
  ghost predicate WritesBehind(a: nat, acc: Account, w: Worker, disk: Disk) {
    acc.loaded ==>
      && (!acc.dirty ==> acc.kept == Current(acc))
      && a in disk.cards
      && match PlanOf(w, a)
         case Idle => !acc.dirty ==> disk.cards[a] == Current(acc)
         case Pending(card) => !acc.dirty ==> card == Current(acc)
         case Landed(card) => disk.cards[a] == card && (!acc.dirty ==> card == Current(acc))
         case Lost => true
  }

  /** Updates wait in the order of their versions, none older than the disk's or newer than the server's. */
  ghost predicate InVersion(a: nat, acc: Account, w: Worker, disk: Disk) {
    acc.loaded ==>
      && a in disk.cards && AtMost(disk.cards[a], acc.kept) && AtMost(acc.kept, Current(acc))
      && (forall j | j in w.todo && j.Update? && j.auth == a :: AtMost(disk.cards[a], j.card) && AtMost(j.card, acc.kept))
      && (forall i, k | 0 <= i < k < |w.todo| && w.todo[i].Update? && w.todo[k].Update? && w.todo[i].auth == w.todo[k].auth == a ::
            AtMost(w.todo[i].card, w.todo[k].card))
  }

  ghost predicate Fine(a: nat, acc: Account, w: Worker, disk: Disk) {
    Agrees(a, acc, w, disk) && LoadsOnce(a, acc, w, disk) && WritesBehind(a, acc, w, disk) && InVersion(a, acc, w, disk)
  }

  predicate Concerns(j: Job, a: nat) {
    !j.Search? && j.auth == a
  }

  // --- pushing -----------------------------------------------------------

  lemma LinePush(w: Worker, j: Job)
    ensures Line(w.(todo := w.todo + [j])) == Line(w) + [j]
  {
  }

  lemma PushOther(a: nat, acc: Account, w: Worker, disk: Disk, j: Job)
    requires Fine(a, acc, w, disk) && j != Load(a) && !(j.Update? && j.auth == a)
    ensures Fine(a, acc, w.(todo := w.todo + [j]), disk)
  {
    var w' := w.(todo := w.todo + [j]);
    hide Replay, View, PlanDone, Line;
    LinePush(w, j);
    assert w'.todo[..|w'.todo| - 1] == w.todo;
    assert w'.(todo := w.todo) == w;
  }

  lemma PushUpdate(a: nat, acc: Account, w: Worker, disk: Disk)
    requires Fine(a, acc, w, disk) && acc.loaded
    ensures Fine(a, acc, w.(todo := w.todo + [Update(a, acc.kept)]), disk)
  {
    hide Replay, View, PlanDone, Line;
    LinePush(w, Update(a, acc.kept));
  }

  // --- carrying out ------------------------------------------------------

  lemma LineCarry(w: Worker, d: Done)
    requires w.todo != [] && d.job == w.todo[0]
    ensures Line(Worker(w.todo[1..], w.done + [d])) == Line(w)
  {
  }

  /** Learning a job's result keeps up with the job. */
  lemma LearnsResult(s: Schema, k: Known, disk: Disk, j: Job, ok: bool, a: nat)
    requires k.Seen? ==> k.inv == View(disk.db, a)
    ensures var out := Carry(s, disk, j, ok); Learn(k, out.done, a).Seen? ==> Learn(k, out.done, a).inv == View(out.disk.db, a)
  {
    hide Exec, View, Overlay;
    if ok && j.Order? {
      ExecReports(s, disk.db, j.auth, j.op);
      var r := Exec(s, disk.db, j.auth, j.op);
      if j.auth == a {
        assert Overlay(View(disk.db, a), r.rows) == View(r.db, a);
      } else {
        assert View(r.db, a) == View(disk.db, a);
      }
      hide Reports;
    }
  }

  lemma CarryAgrees(s: Schema, a: nat, acc: Account, w: Worker, disk: Disk, ok: bool)
    requires Agrees(a, acc, w, disk) && w.todo != []
    ensures var out := Carry(s, disk, w.todo[0], ok); Agrees(a, acc, Worker(w.todo[1..], w.done + [out.done]), out.disk)
  {
    hide Replay, Learn, Carry, View;
    var k := if acc.loaded then Seen(acc.cache) else Unseen;
    var out := Carry(s, disk, w.todo[0], ok);
    ReplayLast(k, w.done, out.done, a);
    LearnsResult(s, Replay(k, w.done, a), disk, w.todo[0], ok, a);
  }

  lemma ReplayLast(k: Known, done: seq<Done>, d: Done, a: nat)
    ensures Replay(k, done + [d], a) == Learn(Replay(k, done, a), d, a)
  {
    assert (done + [d])[..|done|] == done;
  }

  /** What a job does to the rows of an account it is not for. */
  lemma CarryElsewhere(s: Schema, disk: Disk, j: Job, ok: bool, a: nat)
    requires !Concerns(j, a)
    ensures var disk' := Carry(s, disk, j, ok).disk;
            && View(disk'.db, a) == View(disk.db, a)
            && (a in disk'.cards <==> a in disk.cards) && (a in disk.cards ==> disk'.cards[a] == disk.cards[a])
  {
    hide Exec, View, Overlay;
    if j.Order? { ExecReports(s, disk.db, j.auth, j.op); }
  }

  lemma ElsewhereFine(a: nat, acc: Account, w: Worker, disk: Disk, disk': Disk)
    requires Fine(a, acc, w, disk) && View(disk'.db, a) == View(disk.db, a)
    requires (a in disk'.cards <==> a in disk.cards) && (a in disk.cards ==> disk'.cards[a] == disk.cards[a])
    ensures Fine(a, acc, w, disk')
  {
    hide Replay, View, PlanOf, Line;
  }

  lemma CarryLoads(s: Schema, a: nat, acc: Account, w: Worker, disk: Disk, ok: bool)
    requires LoadsOnce(a, acc, w, disk) && w.todo != []
    ensures var out := Carry(s, disk, w.todo[0], ok); LoadsOnce(a, acc, Worker(w.todo[1..], w.done + [out.done]), out.disk)
  {
    hide Exec, View, Line;
    var j := w.todo[0];
    var out := Carry(s, disk, j, ok);
    LineCarry(w, out.done);
    forall d | d in w.done && d.job == Load(a)
      ensures !Concerns(j, a) || (out.disk.cards == disk.cards)
    {
      JobWaits(w, d, j);
    }
    assert j in Line(w) by { InLine(w); }
  }

  lemma InLine(w: Worker)
    ensures forall j | j in w.todo :: j in Line(w)
  {
  }

  /** A result's job and the next job are two entries of the line. */
  lemma JobWaits(w: Worker, d: Done, j: Job)
    requires d in w.done && w.todo != [] && j == w.todo[0]
    ensures d.job in Line(w) && j in Line(w)
    ensures d.job == j ==> multiset(Line(w))[j] >= 2
  {
    var i :| 0 <= i < |w.done| && w.done[i] == d;
    assert Jobs(w.done)[i] == d.job;
    assert multiset(Line(w)) == multiset(Jobs(w.done)) + multiset(w.todo);
    assert d.job in multiset(Jobs(w.done)) && j in multiset(w.todo);
    assert Line(w)[i] == d.job && Line(w)[|w.done|] == j;
  }

  /** Carrying out the oldest job changes the plan only if that job is the newest update. */
  lemma {:induction false} PlanCarry(w: Worker, d: Done, a: nat)
    requires w.todo != [] && d.job == w.todo[0]
    ensures var j, w' := w.todo[0], Worker(w.todo[1..], w.done + [d]);
            || PlanOf(w', a) == PlanOf(w, a)
            || (j.Update? && j.auth == a && PlanOf(w, a) == Pending(j.card) && PlanOf(w', a) == (if d.ok then Landed(j.card) else Lost))
    ensures PlanOf(w, a) == PlanOf(Worker(w.todo[1..], w.done + [d]), a) ==>
              PlanOf(w, a).Pending? || !(w.todo[0].Update? && w.todo[0].auth == a)
    decreases |w.todo|
  {
    var w' := Worker(w.todo[1..], w.done + [d]);
    if |w.todo| == 1 {
      assert (w.done + [d])[..|w.done|] == w.done;
      assert w.(todo := []) == Worker([], w.done);
    } else {
      var shorter := w.(todo := w.todo[..|w.todo| - 1]);
      PlanCarry(shorter, d, a);
      assert w'.(todo := w'.todo[..|w'.todo| - 1]) == Worker(shorter.todo[1..], shorter.done + [d]);
    }
  }

  lemma CarryWrites(s: Schema, a: nat, acc: Account, w: Worker, disk: Disk, ok: bool)
    requires WritesBehind(a, acc, w, disk) && w.todo != [] && (acc.loaded ==> w.todo[0] != Load(a))
    ensures var out := Carry(s, disk, w.todo[0], ok); WritesBehind(a, acc, Worker(w.todo[1..], w.done + [out.done]), out.disk)
  {
    hide Exec, View, PlanOf;
    var out := Carry(s, disk, w.todo[0], ok);
    PlanCarry(w, out.done, a);
  }

  lemma CarryVersions(s: Schema, a: nat, acc: Account, w: Worker, disk: Disk, ok: bool)
    requires InVersion(a, acc, w, disk) && w.todo != [] && (acc.loaded ==> w.todo[0] != Load(a))
    ensures var out := Carry(s, disk, w.todo[0], ok); InVersion(a, acc, Worker(w.todo[1..], w.done + [out.done]), out.disk)
    ensures var out := Carry(s, disk, w.todo[0], ok); acc.loaded ==> a in out.disk.cards && AtMost(disk.cards[a], out.disk.cards[a])
  {
    hide Exec, View;
    var out := Carry(s, disk, w.todo[0], ok);
    assert forall j | j in w.todo[1..] :: j in w.todo;
    assert forall i | 0 <= i < |w.todo[1..]| :: w.todo[1..][i] == w.todo[i + 1];
  }

  lemma CarryFine(s: Schema, a: nat, acc: Account, w: Worker, disk: Disk, ok: bool)
    requires Fine(a, acc, w, disk) && w.todo != []
    ensures var out := Carry(s, disk, w.todo[0], ok); Fine(a, acc, Worker(w.todo[1..], w.done + [out.done]), out.disk)
  {
    assert acc.loaded ==> w.todo[0] != Load(a) by {
      InLine(w);
      assert w.todo[0] in Line(w);
    }
    hide *;
    OpenFine(a, acc, w, disk);
    CarryAgrees(s, a, acc, w, disk, ok);
    CarryLoads(s, a, acc, w, disk, ok);
    CarryWrites(s, a, acc, w, disk, ok);
    CarryVersions(s, a, acc, w, disk, ok);
    var out := Carry(s, disk, w.todo[0], ok);
    CloseFine(a, acc, Worker(w.todo[1..], w.done + [out.done]), out.disk);
  }

  lemma OpenFine(a: nat, acc: Account, w: Worker, disk: Disk)
    requires Fine(a, acc, w, disk)
    ensures Agrees(a, acc, w, disk) && LoadsOnce(a, acc, w, disk) && WritesBehind(a, acc, w, disk) && InVersion(a, acc, w, disk)
  {
  }

  lemma CloseFine(a: nat, acc: Account, w: Worker, disk: Disk)
    requires Agrees(a, acc, w, disk) && LoadsOnce(a, acc, w, disk) && WritesBehind(a, acc, w, disk) && InVersion(a, acc, w, disk)
    ensures Fine(a, acc, w, disk)
  {
  }

  // --- taking a result ---------------------------------------------------

  /** The account after the server has taken a result, whosoever it is. */
  function Took(acc: Account, d: Done, a: nat): Account {
    if Concerns(d.job, a) then Absorb(acc, d) else acc
  }

  lemma {:induction false} ReplayFirst(k: Known, done: seq<Done>, a: nat)
    requires done != []
    ensures Replay(k, done, a) == Replay(Learn(k, done[0], a), done[1..], a)
  {
    if |done| == 1 {
      assert done[..0] == [];
    } else {
      ReplayFirst(k, done[..|done| - 1], a);
      assert done[..|done| - 1][1..] == done[1..][..|done[1..]| - 1];
    }
  }

  lemma LinePop(w: Worker)
    requires w.done != []
    ensures Line(w) == [w.done[0].job] + Line(w.(done := w.done[1..]))
  {
  }

  lemma PopAgrees(a: nat, acc: Account, w: Worker, disk: Disk)
    requires Agrees(a, acc, w, disk) && LoadsOnce(a, acc, w, disk) && w.done != []
    ensures Agrees(a, Took(acc, w.done[0], a), w.(done := w.done[1..]), disk)
  {
    ReplayFirst(if acc.loaded then Seen(acc.cache) else Unseen, w.done, a);
    hide Replay, View, Overlay, LoadsOnce;
  }

  lemma TookFlags(acc: Account, d: Done, a: nat)
    ensures Took(acc, d, a).loaded == (acc.loaded || (d.job == Load(a) && d.ok)) && Took(acc, d, a).dirty == acc.dirty
  {
    hide Overlay;
  }

  /** The part of LoadsOnce that speaks of the database. */
  ghost predicate CardsFit(a: nat, loaded: bool, done: seq<Done>, disk: Disk) {
    && (loaded ==> a in disk.cards)
    && (forall d | d in done && d.job == Load(a) && d.ok :: a in disk.cards && d.card == disk.cards[a])
  }

  lemma LoadsParts(a: nat, acc: Account, w: Worker, disk: Disk)
    ensures LoadsOnce(a, acc, w, disk) <==>
            OneLoad(a, acc.loaded, Line(w)) && (!acc.loaded ==> !acc.dirty) && CardsFit(a, acc.loaded, w.done, disk)
  {
    hide Line;
  }

  lemma PopCards(a: nat, loaded: bool, done: seq<Done>, disk: Disk)
    requires CardsFit(a, loaded, done, disk) && done != []
    ensures CardsFit(a, loaded || (done[0].job == Load(a) && done[0].ok), done[1..], disk)
  {
    assert done[0] in done && forall x | x in done[1..] :: x in done;
  }

  /** Taking a result: a failed load comes back as a new one, every other load is over. */
  lemma PopLoads(a: nat, acc: Account, w: Worker, disk: Disk)
    requires LoadsOnce(a, acc, w, disk) && w.done != []
    ensures var d, w' := w.done[0], w.(done := w.done[1..]);
            LoadsOnce(a, Took(acc, d, a), if d.job == Load(a) && !d.ok then w'.(todo := w'.todo + [Load(a)]) else w', disk)
  {
    hide Line, Took, LoadsOnce, OneLoad, CardsFit;
    var d, w' := w.done[0], w.(done := w.done[1..]);
    var again := if d.job == Load(a) && !d.ok then w'.(todo := w'.todo + [Load(a)]) else w';
    LoadsParts(a, acc, w, disk);
    LinePop(w);
    LinePush(w', Load(a));
    PopLine(a, acc.loaded, d, Line(w'));
    PopCards(a, acc.loaded, w.done, disk);
    TookFlags(acc, d, a);
    LoadsParts(a, Took(acc, d, a), again, disk);
  }

  /** A line of jobs has one load of an account that is not loaded, and no update of it; else no load. */
  ghost predicate OneLoad(a: nat, loaded: bool, line: seq<Job>) {
    && multiset(line)[Load(a)] == (if loaded then 0 else 1)
    && (!loaded ==> forall j | j in line :: !(j.Update? && j.auth == a))
  }

  lemma PopLine(a: nat, loaded: bool, d: Done, line: seq<Job>)
    requires OneLoad(a, loaded, [d.job] + line)
    ensures OneLoad(a, loaded || (d.job == Load(a) && d.ok), if d.job == Load(a) && !d.ok then line + [Load(a)] else line)
  {
    assert multiset([d.job] + line) == multiset{d.job} + multiset(line);
    assert multiset(line + [Load(a)]) == multiset(line) + multiset{Load(a)};
    assert forall j | j in line :: j in [d.job] + line;
  }

  lemma {:induction false} PlanDonePop(done: seq<Done>, a: nat)
    requires done != []
    ensures var d := done[0];
            || PlanDone(done[1..], a) == PlanDone(done, a)
            || (d.job.Update? && d.job.auth == a && PlanDone(done[1..], a) == Idle
                && PlanDone(done, a) == (if d.ok then Landed(d.job.card) else Lost))
  {
    if |done| > 1 {
      PlanDonePop(done[..|done| - 1], a);
      assert done[..|done| - 1][1..] == done[1..][..|done[1..]| - 1];
    }
  }

  lemma {:induction false} PlanPop(w: Worker, a: nat)
    requires w.done != []
    ensures var d, w' := w.done[0], w.(done := w.done[1..]);
            || PlanOf(w', a) == PlanOf(w, a)
            || (d.job.Update? && d.job.auth == a && PlanOf(w', a) == Idle
                && PlanOf(w, a) == (if d.ok then Landed(d.job.card) else Lost))
    decreases |w.todo|
  {
    if w.todo == [] {
      PlanDonePop(w.done, a);
    } else {
      PlanPop(w.(todo := w.todo[..|w.todo| - 1]), a);
    }
  }

  /** The line after a result: a failed load or update of the account is queued again. */
  function Requeued(acc: Account, w: Worker, d: Done, a: nat): Worker {
    if !d.ok && d.job == Load(a) then w.(todo := w.todo + [Load(a)])
    else if !d.ok && d.job.Update? && d.job.auth == a then w.(todo := w.todo + [Update(a, acc.kept)])
    else w
  }

  lemma {:induction false} PlanDoneIdle(done: seq<Done>, a: nat)
    requires forall d | d in done :: !(d.job.Update? && d.job.auth == a)
    ensures PlanDone(done, a) == Idle
  {
    if done != [] {
      PlanDoneIdle(done[..|done| - 1], a);
    }
  }

  lemma {:induction false} PlanIdle(w: Worker, a: nat)
    requires forall j | j in Line(w) :: !(j.Update? && j.auth == a)
    ensures PlanOf(w, a) == Idle
    decreases |w.todo|
  {
    if w.todo == [] {
      forall d | d in w.done ensures !(d.job.Update? && d.job.auth == a) {
        var i :| 0 <= i < |w.done| && w.done[i] == d;
        assert Line(w)[i] == d.job;
      }
      PlanDoneIdle(w.done, a);
    } else {
      InLine(w);
      var shorter := w.(todo := w.todo[..|w.todo| - 1]);
      forall j | j in Line(shorter) ensures j in Line(w) {
        var i :| 0 <= i < |Line(shorter)| && Line(shorter)[i] == j;
        assert Line(w)[i] == j;
      }
      PlanIdle(shorter, a);
    }
  }

  /** The first result belongs to the line, and a load or update tells whether the account is loaded. */
  lemma FirstResult(a: nat, acc: Account, w: Worker, disk: Disk)
    requires LoadsOnce(a, acc, w, disk) && w.done != []
    ensures w.done[0].job == Load(a) ==> !acc.loaded && !acc.dirty
    ensures w.done[0].job.Update? && w.done[0].job.auth == a ==> acc.loaded
    ensures !acc.loaded ==> PlanOf(w.(done := w.done[1..]), a) == Idle
    ensures !acc.loaded ==> forall j | j in w.todo :: !(j.Update? && j.auth == a)
  {
    LinePop(w);
    InLine(w);
    assert w.done[0].job in Line(w);
    if !acc.loaded {
      assert forall j | j in Line(w.(done := w.done[1..])) :: j in Line(w);
      PlanIdle(w.(done := w.done[1..]), a);
    }
  }

  lemma PopWrites(a: nat, acc: Account, w: Worker, disk: Disk)
    requires LoadsOnce(a, acc, w, disk) && WritesBehind(a, acc, w, disk) && w.done != []
    ensures var d, w' := w.done[0], w.(done := w.done[1..]);
            WritesBehind(a, Took(acc, d, a), Requeued(acc, w', d, a), disk)
  {
    var d, w' := w.done[0], w.(done := w.done[1..]);
    FirstResult(a, acc, w, disk);
    PlanPop(w, a);
    if d.job.Update? && d.job.auth == a && !d.ok {
      var again := Requeued(acc, w', d, a);
      assert again.todo[..|again.todo| - 1] == w'.todo;
    }
    hide Line, PlanDone, Overlay;
  }

  lemma PopVersions(a: nat, acc: Account, w: Worker, disk: Disk)
    requires LoadsOnce(a, acc, w, disk) && InVersion(a, acc, w, disk) && w.done != []
    ensures var d, w' := w.done[0], w.(done := w.done[1..]);
            InVersion(a, Took(acc, d, a), Requeued(acc, w', d, a), disk)
  {
    hide Line, PlanOf, Overlay;
    FirstResult(a, acc, w, disk);
  }

  lemma PopFine(a: nat, acc: Account, w: Worker, disk: Disk)
    requires Fine(a, acc, w, disk) && w.done != []
    ensures var d, w' := w.done[0], w.(done := w.done[1..]);
            Fine(a, Took(acc, d, a), Requeued(acc, w', d, a), disk)
  {
    hide Agrees, LoadsOnce, WritesBehind, InVersion;
    var d, w' := w.done[0], w.(done := w.done[1..]);
    FirstResult(a, acc, w, disk);
    PopAgrees(a, acc, w, disk);
    PopLoads(a, acc, w, disk);
    PopWrites(a, acc, w, disk);
    PopVersions(a, acc, w, disk);
    RequeuedAgrees(a, Took(acc, d, a), w', Requeued(acc, w', d, a), disk);
    if d.job.Update? && d.job.auth == a && !d.ok {
      RequeuedLoads(a, acc, w', disk);
    }
  }

  lemma RequeuedAgrees(a: nat, acc: Account, w: Worker, w': Worker, disk: Disk)
    requires Agrees(a, acc, w, disk) && w'.done == w.done
    ensures Agrees(a, acc, w', disk)
  {
  }

  lemma RequeuedLoads(a: nat, acc: Account, w: Worker, disk: Disk)
    requires LoadsOnce(a, acc, w, disk) && acc.loaded
    ensures LoadsOnce(a, acc, w.(todo := w.todo + [Update(a, acc.kept)]), disk)
  {
    hide Line;
    LinePush(w, Update(a, acc.kept));
  }

  // ---------------------------------------------------------------------
  //  Every state of every run
  // ---------------------------------------------------------------------

  /** All the jobs that have been pushed and not finished. */
  function Outstanding(ws: seq<Worker>): nat {
    if ws == [] then 0
    else
      var w := ws[|ws| - 1];
      Outstanding(ws[..|ws| - 1]) + |w.todo| + |w.done|
  }

  /** A job waits at the worker of its account, which is known. */
  ghost predicate AtHome(st: State) {
    && |st.workers| == WORKERS
    && forall i, j | 0 <= i < WORKERS && j in Line(st.workers[i]) :: Home(j) == i && (j.Search? || j.auth in st.accounts)
  }

  ghost predicate Good(st: State) {
    && AtHome(st)
    && st.inFlight == Outstanding(st.workers)
    && forall a | a in st.accounts :: Fine(a, st.accounts[a], st.workers[a % WORKERS], st.disk)
  }

  lemma {:induction false} OutstandingSet(ws: seq<Worker>, i: nat, w: Worker)
    requires i < |ws|
    ensures Outstanding(ws[i := w]) + |ws[i].todo| + |ws[i].done| == Outstanding(ws) + |w.todo| + |w.done|
  {
    var most := ws[..|ws| - 1];
    if i == |ws| - 1 {
      assert ws[i := w][..|ws| - 1] == most;
    } else {
      OutstandingSet(most, i, w);
      assert ws[i := w][..|ws| - 1] == most[i := w];
    }
  }

  lemma PushAtHome(st: State, j: Job)
    requires AtHome(st) && st.inFlight == Outstanding(st.workers) && (j.Search? || j.auth in st.accounts)
    ensures AtHome(Push(st, j)) && Push(st, j).inFlight == Outstanding(Push(st, j).workers)
  {
    var w := st.workers[Home(j)];
    LinePush(w, j);
    OutstandingSet(st.workers, Home(j), w.(todo := w.todo + [j]));
    hide Line, Outstanding;
  }

  /** An account that a pushed job does not load or update stays fine. */
  lemma FineAfterPush(st: State, j: Job, a: nat)
    requires Good(st) && a in st.accounts && j != Load(a) && !(j.Update? && j.auth == a)
    ensures Fine(a, st.accounts[a], Push(st, j).workers[a % WORKERS], st.disk)
  {
    hide Fine, Line, Outstanding;
    PushOther(a, st.accounts[a], st.workers[a % WORKERS], st.disk, j);
  }

  lemma PushedGood(st: State, j: Job)
    requires AtHome(st) && st.inFlight == Outstanding(st.workers) && (j.Search? || j.auth in st.accounts)
    requires forall a | a in st.accounts :: Fine(a, st.accounts[a], Push(st, j).workers[a % WORKERS], st.disk)
    ensures Good(Push(st, j))
  {
    PushAtHome(st, j);
    hide Fine, Line, Outstanding, AtHome;
  }

  lemma PushGood(st: State, j: Job)
    requires Good(st) && !j.Load? && !j.Update? && (j.Search? || j.auth in st.accounts)
    ensures Good(Push(st, j))
  {
    forall a | a in st.accounts
      ensures Fine(a, st.accounts[a], Push(st, j).workers[a % WORKERS], st.disk)
    {
      FineAfterPush(st, j, a);
    }
    PushedGood(st, j);
  }

  lemma {:induction false} ReplayUnseen(done: seq<Done>, a: nat)
    requires forall d | d in done :: !Concerns(d.job, a)
    ensures Replay(Unseen, done, a) == Unseen
  {
    if done != [] {
      ReplayUnseen(done[..|done| - 1], a);
    }
  }

  lemma NewFine(a: nat, w: Worker, disk: Disk)
    requires forall j | j in Line(w) :: !Concerns(j, a)
    ensures Fine(a, Account(false, map[], false, Card(0, 0), 0), w.(todo := w.todo + [Load(a)]), disk)
  {
    forall d | d in w.done ensures !Concerns(d.job, a) {
      var i :| 0 <= i < |w.done| && w.done[i] == d;
      assert Line(w)[i] == d.job;
    }
    ReplayUnseen(w.done, a);
    LinePush(w, Load(a));
    assert Load(a) !in Line(w) by { assert Concerns(Load(a), a); }
    hide Replay, Line, PlanOf;
    assert Load(a) !in multiset(Line(w));
  }

  lemma StaysHome(st: State, a: nat, acc: Account)
    requires AtHome(st)
    ensures |st.workers| == WORKERS && AtHome(st.(accounts := st.accounts[a := acc]))
  {
    hide Line;
  }

  lemma KnowGood(st: State, a: nat)
    requires Good(st) && a !in st.accounts
    ensures Good(Push(st.(accounts := st.accounts[a := Account(false, map[], false, Card(0, 0), 0)]), Load(a)))
  {
    var st0 := st.(accounts := st.accounts[a := Account(false, map[], false, Card(0, 0), 0)]);
    NewFine(a, st.workers[a % WORKERS], st.disk);
    StaysHome(st, a, st0.accounts[a]);
    hide Fine, Line, Outstanding, AtHome;
    forall b | b in st0.accounts
      ensures Fine(b, st0.accounts[b], Push(st0, Load(a)).workers[b % WORKERS], st.disk)
    {
      if b != a { FineAfterPush(st, Load(a), b); }
    }
    PushedGood(st0, Load(a));
  }

  lemma ChangeFine(a: nat, acc: Account, w: Worker, disk: Disk, bits: nat, counters: nat)
    requires Fine(a, acc, w, disk) && acc.loaded && acc.kept.bits <= bits && acc.counters <= counters
    ensures Fine(a, acc.(dirty := true, kept := acc.kept.(bits := bits), counters := counters), w, disk)
  {
    hide Replay, View, PlanOf, Line;
  }

  lemma CommitFine(a: nat, acc: Account, w: Worker, disk: Disk)
    requires Fine(a, acc, w, disk) && acc.loaded
    ensures Fine(a, acc.(dirty := false, kept := Current(acc)), w.(todo := w.todo + [Update(a, Current(acc))]), disk)
  {
    hide Fine;
    var acc' := acc.(dirty := true, kept := Current(acc));
    CopyFine(a, acc, w, disk);
    PushUpdate(a, acc', w, disk);
    CleanFine(a, acc', w, disk);
  }

  lemma CopyFine(a: nat, acc: Account, w: Worker, disk: Disk)
    requires Fine(a, acc, w, disk) && acc.loaded
    ensures Fine(a, acc.(dirty := true, kept := Current(acc)), w, disk)
  {
    hide Replay, View, PlanOf, Line;
  }

  lemma CleanFine(a: nat, acc: Account, w: Worker, disk: Disk)
    requires acc.loaded && acc.kept == Current(acc)
    requires Fine(a, acc, w.(todo := w.todo + [Update(a, acc.kept)]), disk)
    ensures Fine(a, acc.(dirty := false), w.(todo := w.todo + [Update(a, acc.kept)]), disk)
  {
    assert PlanOf(w.(todo := w.todo + [Update(a, acc.kept)]), a) == Pending(acc.kept);
    hide Replay, View, PlanOf, Line;
  }

  lemma DirtyLoaded(a: nat, acc: Account, w: Worker, disk: Disk)
    requires Fine(a, acc, w, disk) && acc.dirty
    ensures acc.loaded
  {
  }

  lemma CommitGood(st: State, a: nat)
    requires Good(st) && a in st.accounts && st.accounts[a].dirty
    ensures var acc := st.accounts[a];
            Good(Push(st.(accounts := st.accounts[a := acc.(dirty := false, kept := Current(acc))]), Update(a, Current(acc))))
  {
    var acc := st.accounts[a];
    var st0 := st.(accounts := st.accounts[a := acc.(dirty := false, kept := Current(acc))]);
    hide Fine, Line, Outstanding, AtHome;
    StaysHome(st, a, st0.accounts[a]);
    DirtyLoaded(a, acc, st.workers[a % WORKERS], st.disk);
    CommitFine(a, acc, st.workers[a % WORKERS], st.disk);
    forall b | b in st0.accounts
      ensures Fine(b, st0.accounts[b], Push(st0, Update(a, Current(acc))).workers[b % WORKERS], st.disk)
    {
      if b != a { FineAfterPush(st, Update(a, Current(acc)), b); }
    }
    PushedGood(st0, Update(a, Current(acc)));
  }

  lemma FineAfterRun(s: Schema, st: State, i: nat, ok: bool, a: nat)
    requires Good(st) && i < WORKERS && st.workers[i].todo != [] && a in st.accounts
    ensures var st' := WorkerRuns(s, st, i, ok); Fine(a, st.accounts[a], st'.workers[a % WORKERS], st'.disk)
  {
    var w := st.workers[i];
    InLine(w);
    assert Home(w.todo[0]) == i;
    hide Fine, Line, Outstanding, Carry, AtHome, View;
    if a % WORKERS == i {
      CarryFine(s, a, st.accounts[a], w, st.disk, ok);
    } else {
      CarryElsewhere(s, st.disk, w.todo[0], ok, a);
      ElsewhereFine(a, st.accounts[a], st.workers[a % WORKERS], st.disk, Carry(s, st.disk, w.todo[0], ok).disk);
    }
  }

  lemma ExecuteGood(s: Schema, st: State, i: nat, ok: bool)
    requires Good(st) && i < WORKERS && st.workers[i].todo != []
    ensures Good(WorkerRuns(s, st, i, ok))
  {
    var w := st.workers[i];
    var st' := WorkerRuns(s, st, i, ok);
    forall a | a in st.accounts
      ensures Fine(a, st.accounts[a], st'.workers[a % WORKERS], st'.disk)
    {
      FineAfterRun(s, st, i, ok, a);
    }
    hide Fine, Carry, View, Line, Outstanding;
    var out := Carry(s, st.disk, w.todo[0], ok);
    CarriesJob(s, st.disk, w.todo[0], ok);
    LineCarry(w, out.done);
    OutstandingSet(st.workers, i, Worker(w.todo[1..], w.done + [out.done]));
  }

  lemma CarriesJob(s: Schema, disk: Disk, j: Job, ok: bool)
    ensures Carry(s, disk, j, ok).done.job == j && Carry(s, disk, j, ok).done.ok == ok
  {
  }

  /** What finishing a result queues again: a failed load, or a failed update with the newest row. */
  function Again(acc: Account, d: Done): seq<Job> {
    if d.ok then []
    else if d.job.Load? then [d.job]
    else if d.job.Update? then [Update(d.job.auth, acc.kept)]
    else []
  }

  /** Finishing, seen from the worker: its result is gone, and what is queued again stays with it. */
  function Finished(st: State, i: nat): State
    requires i < |st.workers| && st.workers[i].done != [] && st.inFlight > 0
    requires var j := st.workers[i].done[0].job; j.Search? || j.auth in st.accounts
  {
    var w, d := st.workers[i], st.workers[i].done[0];
    if d.job.Search? then st.(workers := st.workers[i := w.(done := w.done[1..])], inFlight := st.inFlight - 1)
    else
      var acc := st.accounts[d.job.auth];
      State(st.workers[i := Worker(w.todo + Again(acc, d), w.done[1..])], st.inFlight - 1 + |Again(acc, d)|,
            st.accounts[d.job.auth := Absorb(acc, d)], st.disk)
  }

  lemma FirstAtHome(st: State, i: nat)
    requires AtHome(st) && i < WORKERS && st.workers[i].done != []
    ensures var j := st.workers[i].done[0].job; Home(j) == i && (j.Search? || j.auth in st.accounts)
  {
    LinePop(st.workers[i]);
    assert st.workers[i].done[0].job in Line(st.workers[i]);
  }

  lemma FinishShape(st: State, i: nat)
    requires AtHome(st) && i < WORKERS && st.workers[i].done != [] && st.inFlight > 0
    ensures var j := st.workers[i].done[0].job; j.Search? || j.auth in st.accounts
    ensures FinishOne(st, i) == Finished(st, i)
  {
    FirstAtHome(st, i);
    hide Line, Absorb, AtHome;
    var w, d := st.workers[i], st.workers[i].done[0];
    var w' := w.(done := w.done[1..]);
    assert w' == Worker(w.todo + [], w.done[1..]);
    var again := if d.job.Search? then [] else Again(st.accounts[d.job.auth], d);
    assert st.workers[i := w'][i := Worker(w.todo + again, w.done[1..])] == st.workers[i := Worker(w.todo + again, w.done[1..])];
  }

  /** The account's worker and the account itself, after the worker's first result is finished. */
  lemma FineAfterTake(a: nat, acc: Account, w: Worker, disk: Disk, other: Account)
    requires Fine(a, acc, w, disk) && w.done != []
    requires Concerns(w.done[0].job, a) ==> other == acc
    ensures var d := w.done[0]; Fine(a, Took(acc, d, a), Worker(if d.job.Search? then w.todo else w.todo + Again(other, d), w.done[1..]), disk)
  {
    hide Fine, Absorb;
    var d, w' := w.done[0], w.(done := w.done[1..]);
    PopFine(a, acc, w, disk);
    assert w' == Worker(w.todo, w.done[1..]) && w.todo + [] == w.todo;
    if !Concerns(d.job, a) && !d.ok && (d.job.Load? || d.job.Update?) {
      PushOther(a, acc, w', disk, Again(other, d)[0]);
    }
  }

  lemma FinishGood(st: State, i: nat)
    requires Good(st) && i < WORKERS && st.workers[i].done != [] && st.inFlight > 0
    ensures Good(FinishOne(st, i))
  {
    FirstAtHome(st, i);
    FinishShape(st, i);
    FinishAtHome(st, i);
    var w, d := st.workers[i], st.workers[i].done[0];
    var st' := Finished(st, i);
    hide Fine, Absorb, Line, Outstanding, FinishOne;
    forall a | a in st'.accounts
      ensures Fine(a, st'.accounts[a], st'.workers[a % WORKERS], st'.disk)
    {
      if a % WORKERS == i {
        FineAfterTake(a, st.accounts[a], w, st.disk, if d.job.Search? then st.accounts[a] else st.accounts[d.job.auth]);
      }
    }
  }

  lemma FinishAtHome(st: State, i: nat)
    requires AtHome(st) && st.inFlight == Outstanding(st.workers)
    requires i < WORKERS && st.workers[i].done != [] && st.inFlight > 0
    requires var j := st.workers[i].done[0].job; j.Search? || j.auth in st.accounts
    ensures AtHome(Finished(st, i)) && Finished(st, i).inFlight == Outstanding(Finished(st, i).workers)
  {
    var w, d := st.workers[i], st.workers[i].done[0];
    var st' := Finished(st, i);
    LinePop(w);
    OutstandingSet(st.workers, i, st'.workers[i]);
    assert st'.accounts.Keys == st.accounts.Keys;
    var w' := w.(done := w.done[1..]);
    if !d.job.Search? && Again(st.accounts[d.job.auth], d) != [] {
      LinePush(w', Again(st.accounts[d.job.auth], d)[0]);
    } else {
      assert st'.workers[i] == w';
    }
    FirstAtHome(st, i);
    hide Line, Outstanding;
  }

  lemma ChangeGood(st: State, a: nat, bits: nat, counters: nat)
    requires Good(st) && a in st.accounts && st.accounts[a].loaded
    requires st.accounts[a].kept.bits <= bits && st.accounts[a].counters <= counters
    ensures Good(st.(accounts := st.accounts[a := st.accounts[a].(dirty := true, kept := st.accounts[a].kept.(bits := bits), counters := counters)]))
  {
    hide Fine, Line, Outstanding;
    var acc' := st.accounts[a].(dirty := true, kept := st.accounts[a].kept.(bits := bits), counters := counters);
    StaysHome(st, a, acc');
    hide AtHome;
    ChangeFine(a, st.accounts[a], st.workers[a % WORKERS], st.disk, bits, counters);
  }

  /** The steps of the server's own thread that push or mark. */
  lemma CallGood(s: Schema, st: State, e: Step)
    requires Good(st) && |st.workers| == WORKERS && (e.Know? || e.Change? || e.Commit?)
    ensures Good(Next(s, st, e))
  {
    hide Good, Push;
    match e
    case Know(a) => if a !in st.accounts && a != 0 { KnowGood(st, a); }
    case Change(a, bits, counters) =>
      if a in st.accounts && st.accounts[a].loaded && st.accounts[a].kept.bits <= bits && st.accounts[a].counters <= counters {
        ChangeGood(st, a, bits, counters);
      }
    case Commit(a) =>
      if a in st.accounts && st.accounts[a].dirty {
        CommitGood(st, a);
        CommitPushes(s, st, a);
      }
    case _ =>
  }

  lemma CommitPushes(s: Schema, st: State, a: nat)
    requires |st.workers| == WORKERS && a in st.accounts && st.accounts[a].dirty
    ensures var acc := st.accounts[a];
            Next(s, st, Commit(a)) == Push(st.(accounts := st.accounts[a := acc.(dirty := false, kept := Current(acc))]), Update(a, Current(acc)))
  {
  }

  /** The steps that only push a task. */
  lemma TaskGood(s: Schema, st: State, e: Step)
    requires Good(st) && |st.workers| == WORKERS && (e.Submit? || e.Recall? || e.Look?)
    ensures Good(Next(s, st, e))
  {
    hide Good, Push;
    match e
    case Submit(a, op) => if a in st.accounts { PushGood(st, Order(a, op)); }
    case Recall(a) => if a in st.accounts { PushGood(st, ReadUnsaved(a)); }
    case Look(w) => PushGood(st, Search(w));
    case _ =>
  }

  /** A worker's turn, and the taking of a result. */
  lemma WorkGood(s: Schema, st: State, e: Step)
    requires Good(st) && |st.workers| == WORKERS && (e.Execute? || e.Finish?)
    ensures Good(Next(s, st, e))
  {
    hide Good, WorkerRuns, FinishOne;
    match e
    case Execute(i, ok) => if i < WORKERS && st.workers[i].todo != [] { ExecuteGood(s, st, i, ok); }
    case Finish(i) => if i < WORKERS && st.workers[i].done != [] && st.inFlight > 0 { FinishGood(st, i); }
    case _ =>
  }

  lemma NextGood(s: Schema, st: State, e: Step)
    requires Good(st)
    ensures Good(Next(s, st, e))
  {
    assert |st.workers| == WORKERS;
    hide Good, Next;
    if e.Execute? || e.Finish? {
      WorkGood(s, st, e);
    } else if e.Submit? || e.Recall? || e.Look? {
      TaskGood(s, st, e);
    } else {
      CallGood(s, st, e);
    }
  }

  /** The account's worker has one more job at the back, and nothing else is in flight. */
  ghost predicate Queues(st: State, st': State, a: nat, j: Job) {
    && |st.workers| == |st'.workers| == 64 && st'.inFlight == st.inFlight + 1 && st'.disk == st.disk
    && forall i | 0 <= i < 64 ::
         st'.workers[i] == if i == a % 64 then st.workers[i].(todo := st.workers[i].todo + [j]) else st.workers[i]
  }

  /** Every call of the server that needs the database queues its one job behind all others at the worker of
      its account: an order task, a load of a new account, a list of unsaved orders, a write of the current fields. */
  lemma CallsQueue(s: Schema, st: State, a: nat, op: Op)
    requires |st.workers| == 64
    ensures a in st.accounts ==> Queues(st, Next(s, st, Submit(a, op)), a, Order(a, op))
    ensures a in st.accounts ==> Queues(st, Next(s, st, Recall(a)), a, ReadUnsaved(a))
    ensures a !in st.accounts && a != 0 ==> Queues(st, Next(s, st, Know(a)), a, Load(a))
    ensures a in st.accounts && st.accounts[a].dirty ==>
              Queues(st, Next(s, st, Commit(a)), a, Update(a, Card(st.accounts[a].kept.bits, st.accounts[a].counters)))
              && !Next(s, st, Commit(a)).accounts[a].dirty
    ensures a in st.accounts ==> Next(s, st, Know(a)) == st
  {
  }

  /** A change of a loaded account takes effect at once, is to be written, and leaves the rest alone. */
  lemma ChangeIs(s: Schema, st: State, a: nat, bits: nat, counters: nat)
    requires |st.workers| == 64 && a in st.accounts && st.accounts[a].loaded
    requires AtMost(Current(st.accounts[a]), Card(bits, counters))
    ensures var acc := Next(s, st, Change(a, bits, counters)).accounts[a];
            && Current(acc) == Card(bits, counters) && acc.dirty && acc.loaded && acc.cache == st.accounts[a].cache
            && Next(s, st, Change(a, bits, counters)) == st.(accounts := st.accounts[a := acc])
  {
  }

  /** Accounts are never forgotten. */
  lemma NextKnown(s: Schema, st: State, e: Step, a: nat)
    requires |st.workers| == WORKERS && a in st.accounts
    ensures a in Next(s, st, e).accounts
  {
    hide Absorb, Carry;
  }

  function Run(s: Schema, st: State, steps: seq<Step>): (z: State)
    requires |st.workers| == WORKERS
    ensures |z.workers| == WORKERS
  {
    if steps == [] then st else Next(s, Run(s, st, steps[..|steps| - 1]), steps[|steps| - 1])
  }

  /** The server as it starts: nothing queued, no account known, the database as it was left. */
  predicate Start(st: State) {
    st.workers == seq(WORKERS, i => Worker([], [])) && st.inFlight == 0 && st.accounts == map[]
  }

  lemma {:induction false} StartOutstanding(ws: seq<Worker>)
    requires forall i | 0 <= i < |ws| :: ws[i] == Worker([], [])
    ensures Outstanding(ws) == 0
  {
    if ws != [] {
      StartOutstanding(ws[..|ws| - 1]);
    }
  }

  lemma {:induction false} RunGood(s: Schema, st: State, steps: seq<Step>)
    requires Start(st)
    ensures Good(Run(s, st, steps))
  {
    if steps == [] {
      StartOutstanding(st.workers);
    } else {
      hide Good, Next;
      RunGood(s, st, steps[..|steps| - 1]);
      NextGood(s, Run(s, st, steps[..|steps| - 1]), steps[|steps| - 1]);
    }
  }

  // ---------------------------------------------------------------------
  //  What the back end promises
  // ---------------------------------------------------------------------

  lemma {:induction false} ReplayOthers(k: Known, done: seq<Done>, a: nat)
    requires forall d | d in done :: d.job != Load(a) && !(d.job.Order? && d.job.auth == a)
    ensures Replay(k, done, a) == k
  {
    if done != [] {
      ReplayOthers(k, done[..|done| - 1], a);
    }
  }

  /** For any interleaving of accounts, orders, failures and retries, a loaded account's cache
      brought up to date with its waiting results is the database's inventory; when no result
      of one of its orders waits, the cache itself is. */
  lemma CacheAgreement(s: Schema, st: State, steps: seq<Step>, a: nat)
    requires Start(st) && a in Run(s, st, steps).accounts && Run(s, st, steps).accounts[a].loaded
    ensures var z := Run(s, st, steps);
            var acc, done := z.accounts[a], z.workers[a % WORKERS].done;
            && (Replay(Seen(acc.cache), done, a).Seen? ==> Replay(Seen(acc.cache), done, a).inv == View(z.disk.db, a))
            && ((forall d | d in done :: !(d.job.Order? && d.job.auth == a)) ==> acc.cache == View(z.disk.db, a))
  {
    RunGood(s, st, steps);
    hide Run, Good, View, Replay;
    GoodAgrees(Run(s, st, steps), a);
  }

  lemma GoodAgrees(z: State, a: nat)
    requires Good(z) && a in z.accounts && z.accounts[a].loaded
    ensures var acc, done := z.accounts[a], z.workers[a % WORKERS].done;
            && (Replay(Seen(acc.cache), done, a).Seen? ==> Replay(Seen(acc.cache), done, a).inv == View(z.disk.db, a))
            && ((forall d | d in done :: !(d.job.Order? && d.job.auth == a)) ==> acc.cache == View(z.disk.db, a))
  {
    hide View, Replay, Outstanding;
    assert Fine(a, z.accounts[a], z.workers[a % WORKERS], z.disk);
    hide Fine, Good;
    FineAgrees(a, z.accounts[a], z.workers[a % WORKERS], z.disk);
  }

  lemma FineAgrees(a: nat, acc: Account, w: Worker, disk: Disk)
    requires Fine(a, acc, w, disk) && acc.loaded
    ensures Replay(Seen(acc.cache), w.done, a).Seen? ==> Replay(Seen(acc.cache), w.done, a).inv == View(disk.db, a)
    ensures (forall d | d in w.done :: !(d.job.Order? && d.job.auth == a)) ==> acc.cache == View(disk.db, a)
  {
    hide View, Replay, WritesBehind, InVersion;
    if forall d | d in w.done :: !(d.job.Order? && d.job.auth == a) {
      forall d | d in w.done ensures d.job != Load(a) {
        var i :| 0 <= i < |w.done| && w.done[i] == d;
        assert Line(w)[i] == d.job;
      }
      ReplayOthers(Seen(acc.cache), w.done, a);
    }
  }

  /** Every known account is loaded or has exactly one load on its way, so a wait for an account
      never waits on an empty pool; and the pool's count is exactly what was pushed and not finished. */
  lemma LoadOutstanding(s: Schema, st: State, steps: seq<Step>, a: nat)
    requires Start(st) && a in Run(s, st, steps).accounts
    ensures var z := Run(s, st, steps);
            && z.inFlight == Outstanding(z.workers)
            && multiset(Line(z.workers[a % WORKERS]))[Load(a)] == (if z.accounts[a].loaded then 0 else 1)
            && (!z.accounts[a].loaded ==> z.inFlight > 0)
  {
    hide Good, Run, Line, Outstanding;
    RunGood(s, st, steps);
    GoodCounts(Run(s, st, steps), a);
  }

  lemma GoodCounts(z: State, a: nat)
    requires Good(z) && a in z.accounts
    ensures z.inFlight == Outstanding(z.workers)
    ensures multiset(Line(z.workers[a % WORKERS]))[Load(a)] == (if z.accounts[a].loaded then 0 else 1)
    ensures !z.accounts[a].loaded ==> z.inFlight > 0
  {
    var w := z.workers[a % WORKERS];
    assert Fine(a, z.accounts[a], w, z.disk);
    OutstandingSet(z.workers, a % WORKERS, Worker([], []));
    hide Outstanding, AtHome;
    assert !z.accounts[a].loaded ==> Load(a) in multiset(Line(w));
  }

  /** When the account row is clean and no update of it is in flight, the database has its current fields. */
  lemma WrittenBehind(s: Schema, st: State, steps: seq<Step>, a: nat)
    requires Start(st) && a in Run(s, st, steps).accounts
    requires var z := Run(s, st, steps);
             && z.accounts[a].loaded && !z.accounts[a].dirty
             && forall j | j in Line(z.workers[a % WORKERS]) :: !(j.Update? && j.auth == a)
    ensures var z := Run(s, st, steps); a in z.disk.cards && z.disk.cards[a] == Current(z.accounts[a])
  {
    RunGood(s, st, steps);
    var z := Run(s, st, steps);
    PlanIdle(z.workers[a % WORKERS], a);
    assert Fine(a, z.accounts[a], z.workers[a % WORKERS], z.disk);
  }

  /** No step puts an older row over a newer one, whatever fails and is tried again. */
  lemma NeverOlder(s: Schema, st: State, e: Step, a: nat)
    requires Good(st) && a in st.disk.cards
    ensures a in Next(s, st, e).disk.cards && AtMost(st.disk.cards[a], Next(s, st, e).disk.cards[a])
  {
    if e.Execute? {
      assert |st.workers| == WORKERS;
      hide Good, WorkerRuns;
      if e.worker < WORKERS && st.workers[e.worker].todo != [] {
        ExecuteNeverOlder(s, st, e.worker, e.ok, a);
      }
    } else {
      OnlyWorkersWrite(s, st, e);
      hide Next, Good;
    }
  }

  lemma OnlyWorkersWrite(s: Schema, st: State, e: Step)
    requires |st.workers| == WORKERS && !e.Execute?
    ensures Next(s, st, e).disk == st.disk
  {
    hide Absorb, Current;
  }

  lemma ExecuteNeverOlder(s: Schema, st: State, i: nat, ok: bool, a: nat)
    requires Good(st) && i < WORKERS && st.workers[i].todo != [] && a in st.disk.cards
    ensures a in WorkerRuns(s, st, i, ok).disk.cards && AtMost(st.disk.cards[a], WorkerRuns(s, st, i, ok).disk.cards[a])
  {
    var w := st.workers[i];
    var j := w.todo[0];
    InLine(w);
    assert Home(j) == i && (j.Search? || j.auth in st.accounts);
    hide Carry, View, AtHome, Outstanding;
    if Concerns(j, a) {
      CarryNeverOlder(s, a, st.accounts[a], w, st.disk, ok);
    } else {
      CarryElsewhere(s, st.disk, j, ok, a);
    }
  }

  lemma CarryNeverOlder(s: Schema, a: nat, acc: Account, w: Worker, disk: Disk, ok: bool)
    requires Fine(a, acc, w, disk) && w.todo != [] && a in disk.cards
    ensures var disk' := Carry(s, disk, w.todo[0], ok).disk; a in disk'.cards && AtMost(disk.cards[a], disk'.cards[a])
  {
    InLine(w);
    assert w.todo[0] in Line(w);
    hide Exec, View, Line, Agrees, WritesBehind;
  }

  lemma {:induction false} RunNeverOlder(s: Schema, st: State, first: seq<Step>, more: seq<Step>, a: nat)
    requires Start(st) && a in Run(s, st, first).disk.cards
    ensures a in Run(s, st, first + more).disk.cards
    ensures AtMost(Run(s, st, first).disk.cards[a], Run(s, st, first + more).disk.cards[a])
  {
    if more == [] {
      assert first + more == first;
    } else {
      var most, last := more[..|more| - 1], more[|more| - 1];
      RunNeverOlder(s, st, first, most, a);
      assert (first + more)[..|first + more| - 1] == first + most;
      assert Run(s, st, first + more) == Next(s, Run(s, st, first + most), last);
      hide *;
      RunGood(s, st, first + most);
      NeverOlder(s, Run(s, st, first + most), last, a);
      AtMostThen(Run(s, st, first).disk.cards[a], Run(s, st, first + most).disk.cards[a], Run(s, st, first + more).disk.cards[a]);
    }
  }

  lemma AtMostThen(x: Card, y: Card, z: Card)
    requires AtMost(x, y) && AtMost(y, z)
    ensures AtMost(x, z)
  {
  }
}

/**
 A shard transfer as the two shards and the account server carry it out.  The
 network keeps every message ever sent and may deliver any of them at any time,
 any number of times or never, so losses, duplicates, delays, reordering and the
 server's own resends are all covered.  The shards do what DBServer does with
 each message; the account server is the request machine of Lifecycle.
 */
module ShardTransfer {
  import opened Lifecycle
  import opened LifecycleTheorems

  /** The world around one transfer order.  `dst` holds the characters created at the
      destination for this order, each with its account-server lock. */
  datatype World = World(
    r: Request,
    sent: seq<Effect>,       // everything the account server emitted, in order
    srcHas: bool,
    ownerDeleted: bool,
    dst: map<nat, bool>,     // dbid -> still locked
    fromSrc: seq<Reply>,
    fromDst: seq<Reply>,
    dstRead: nat)            // how far the destination link has been read

  datatype Action =
    | SrcGets(i: nat, works: bool, text: string)     // the source handles sent[i]
    | DstGets(i: nat, dbid: nat, room: Reply)        // the destination handles sent[i]
    | AccountGetsSrc(i: nat, env: Env)
    | AccountGetsDst(i: nat, env: Env)
    | AccountRuns(e: Event, env: Env)                // charge result, tick or sweep
    | OwnerDeletes

  predicate SomeLocked(dst: map<nat, bool>) {
    exists d | d in dst :: dst[d]
  }

  predicate SomeUnlocked(dst: map<nat, bool>) {
    exists d | d in dst :: !dst[d]
  }

  /** The source shard: validate, pack a copy, or delete the character for good once
      the auction server has let it go (`works`). */
  function SrcHandles(w: World, m: Effect, works: bool, text: string): World {
    match m
    case ToSrcValidate => w.(fromSrc := w.fromSrc + [ValidSrc(w.srcHas)])
    case ToSrcCopy =>
      if !w.srcHas then w.(fromSrc := w.fromSrc + [Copied(true, "")])
      else if works && text != "" then w.(fromSrc := w.fromSrc + [Copied(true, text)])
      else w
    case ToSrcCommit(_) =>
      if works then w.(srcHas := false, fromSrc := w.fromSrc + [SrcCommitted]) else w
    case _ => w
  }

  /** The destination shard.  In production a copy is looked up by the order's lock
      before a new character is created; otherwise every copy creates one. */
  function DstHandles(w: World, m: Effect, dbid: nat, room: Reply, production: bool): World {
    match m
    case ToDstValidate => if room.ValidDst? then w.(fromDst := w.fromDst + [room]) else w
    case ToDstCopy(_) =>
      if production && SomeLocked(w.dst) then
        if dbid in w.dst && w.dst[dbid] && dbid != 0 then w.(fromDst := w.fromDst + [Created(dbid)]) else w
      else if dbid != 0 && dbid !in w.dst then
        w.(dst := w.dst[dbid := true], fromDst := w.fromDst + [Created(dbid)])
      else w
    case ToDstCommit(d) =>
      w.(dst := if d in w.dst then w.dst[d := false] else w.dst, fromDst := w.fromDst + [DstCommitted])
    case ToDstRecover =>
      if !SomeLocked(w.dst) then w.(fromDst := w.fromDst + [Recovered(false)])
      else if dbid in w.dst && w.dst[dbid] then
        w.(dst := w.dst[dbid := false], fromDst := w.fromDst + [Recovered(true)])
      else w
    case _ => w
  }

  function AccountHandles(w: World, e: Event, env: Env): World {
    var out := Step1(w.r, e, env);
    w.(r := out.r, sent := w.sent + out.fx)
  }

  function Next(w: World, a: Action, production: bool): World {
    match a
    case SrcGets(i, works, text) => if i < |w.sent| then SrcHandles(w, w.sent[i], works, text) else w
    case DstGets(i, dbid, room) =>
      if i < |w.sent| then DstHandles(w, w.sent[i], dbid, room, production).(dstRead := i + 1) else w
    case AccountGetsSrc(i, env) => if i < |w.fromSrc| then AccountHandles(w, XferReply(w.fromSrc[i]), env) else w
    case AccountGetsDst(i, env) => if i < |w.fromDst| then AccountHandles(w, XferReply(w.fromDst[i]), env) else w
    case AccountRuns(e, env) => if e.Charged? || e.Due? || e.Sweep? then AccountHandles(w, e, env) else w
    case OwnerDeletes => w.(srcHas := false, ownerDeleted := w.ownerDeleted || w.srcHas)
  }

  function Run(w: World, acts: seq<Action>, production: bool): World {
    if acts == [] then w else Next(Run(w, acts[..|acts| - 1], production), acts[|acts| - 1], production)
  }

  /** Where a transfer may start: the character is at the source, or an earlier attempt
      left its one copy, still locked, at the destination. */
  ghost predicate Start(w: World) {
    && (exists order, byVip, env :: Begin(ShardTransfer, order, byVip, env) == Out(w.r, w.sent))
    && (w.srcHas || w.dst != map[])
    && (forall d | d in w.dst :: w.dst[d] && d != 0)
    && (forall d, d' | d in w.dst && d' in w.dst :: d == d')
    && w.fromSrc == [] && w.fromDst == [] && !w.ownerDeleted && w.dstRead == 0
  }

  // ---------------------------------------------------------------------
  //  What the account server sends, and when its step moves
  // ---------------------------------------------------------------------

  /** Every message fits the step the request is at after sending it. */
  predicate Fitting(x: Transfer, f: Effect) {
    match f
    case ToDstCopy(t) => x.step == CopyDst && t != ""
    case ToSrcCommit(d) => x.step == CommitSrc && d == x.newDbid && d != 0
    case ToDstCommit(d) => x.step == CommitDst && d == x.newDbid
    case ToDstRecover => x.step == CommitRecovery
    case _ => true
  }

  /** An operation that keeps the step, sends only fitting messages and reports no success. */
  ghost predicate Keeps(r: Request, out: Out) {
    && out.r.kind == r.kind
    && out.r.xfer.step == r.xfer.step && out.r.xfer.newDbid == r.xfer.newDbid
    && (forall f | f in out.fx :: Fitting(out.r.xfer, f))
    && Notify(true) !in out.fx
  }

  lemma FailKeeps(r: Request)
    ensures Keeps(r, Complete(r, false)) && Complete(r, false).r.phase == r.phase
  {
  }

  lemma StateFulfillKeeps(r: Request, env: Env)
    requires r.kind == ShardTransfer
    ensures Keeps(r, StateFulfill(r, env)) && StateFulfill(r, env).r.phase == r.phase
  {
    FailKeeps(r);
    hide Complete;
  }

  lemma RunStateKeeps(r: Request, timeout: bool, env: Env)
    requires r.kind == ShardTransfer
    ensures Keeps(r, RunState(r, timeout, env)) && RunState(r, timeout, env).r.phase == r.phase
  {
    FailKeeps(r);
    StateFulfillKeeps(r, env);
    hide Complete, StateFulfill, EnterFulfill;
  }

  lemma ChangeStateKeeps(r: Request, phase: Phase, env: Env)
    requires r.kind == ShardTransfer
    ensures Keeps(r, ChangeState(r, phase, env))
  {
    RunStateKeeps(r.(phase := phase), false, env);
    hide RunState;
  }

  /** The events of a transfer in this world. */
  predicate Known(e: Event) {
    e.Charged? || e.Due? || e.Sweep? || e.XferReply?
  }

  /** The step and the destination id change only on the awaited reply. */
  ghost predicate Moves(x: Transfer, e: Event, x': Transfer) {
    || (x'.step == x.step && x'.newDbid == x.newDbid)
    || (e.XferReply? && Answers(x.step, e.reply) && x'.step == NextXfer(x, e.reply).step
        && x'.newDbid == NextXfer(x, e.reply).newDbid
        && (e.reply.Copied? ==> e.reply.ok))
  }

  ghost predicate Succeeds(x: Transfer, e: Event) {
    || (e == XferReply(DstCommitted) && x.step == CommitDst)
    || (e == XferReply(Recovered(true)) && x.step == CommitRecovery)
  }

  ghost predicate Orderly(r: Request, e: Event, out: Out) {
    && out.r.kind == ShardTransfer
    && Moves(r.xfer, e, out.r.xfer)
    && (forall f | f in out.fx :: Fitting(out.r.xfer, f))
    && (Notify(true) in out.fx ==> Succeeds(r.xfer, e))
  }

  lemma OnValidatedOrderly(r: Request, m: Reply, env: Env)
    requires r.kind == ShardTransfer && (m.ValidSrc? || m.ValidDst?)
    ensures Orderly(r, XferReply(m), OnValidated(r, m, env))
  {
    hide ChangeState, Fits, Complete;
    FailKeeps(r);
    ChangeStateKeeps(r.(xfer := r.xfer.(srcConfirmed := true)), Fulfill, env);
    ChangeStateKeeps(r.(xfer := r.xfer.(dstConfirmed := true)), Fulfill, env);
  }

  lemma OnFulfilledOrderly(r: Request, m: Reply, env: Env)
    requires r.kind == ShardTransfer
    ensures Orderly(r, XferReply(m), OnFulfilled(r, m, env))
  {
    hide ChangeState;
    FailKeeps(r);
    FailKeeps(r.(xfer := r.xfer.(container := "")));
    ChangeStateKeeps(r.(xfer := NextXfer(r.xfer, m)), Fulfill, env);
  }

  lemma AccountStepOrderly(r: Request, e: Event, env: Env)
    requires r.kind == ShardTransfer && Known(e)
    ensures Orderly(r, e, Step1(r, e, env))
  {
    hide RunState, ChangeState, OnValidated, OnFulfilled, Complete;
    FailKeeps(r);
    RunStateKeeps(r, true, env);
    ChangeStateKeeps(r, Validate, env);
    if e.XferReply? {
      if e.reply.ValidSrc? || e.reply.ValidDst? {
        OnValidatedOrderly(r, e.reply, env);
      } else {
        OnFulfilledOrderly(r, e.reply, env);
      }
    }
  }

  // ---------------------------------------------------------------------
  //  The invariant
  // ---------------------------------------------------------------------

  /** A message on the wire tells where the transfer has got to since it was sent. */
  predicate Backed(x: Transfer, f: Effect) {
    match f
    case ToDstCopy(_) => x.step == CopyDst || x.step == CommitSrc || x.step == CommitDst
    case ToSrcCommit(d) => (x.step == CommitSrc || x.step == CommitDst) && d == x.newDbid
    case ToDstCommit(d) => x.step == CommitDst && d == x.newDbid
    case ToDstRecover => x.step == CommitRecovery
    case _ => true
  }

  /** A reply from the source tells what is left there. */
  predicate SrcTruth(srcHas: bool, m: Reply) {
    && (m == SrcCommitted || m == Copied(true, "") ==> !srcHas)
    && (m.Copied? ==> m.ok)
  }

  /** A reply from the destination tells what has been made of its copies. */
  ghost predicate DstTruth(w: World, m: Reply) {
    match m
    case Created(d) => d in w.dst
    case DstCommitted => w.r.xfer.step == CommitDst && w.r.xfer.newDbid in w.dst && !w.dst[w.r.xfer.newDbid]
    case Recovered(found) => w.r.xfer.step == CommitRecovery && (found ==> SomeUnlocked(w.dst))
    case _ => true
  }

  predicate FromShard(m: Reply, src: bool) {
    src == (m.ValidSrc? || m.Copied? || m.SrcCommitted?)
  }

  ghost predicate OneCopy(dst: map<nat, bool>) {
    forall d, d' | d in dst && d' in dst :: d == d'
  }

  ghost predicate Safe(w: World) {
    var x := w.r.xfer;
    && w.r.kind == ShardTransfer
    && (forall d | d in w.dst :: d != 0)
    && (x.step == CommitSrc || x.step == CommitDst ==> x.newDbid in w.dst && Created(x.newDbid) in w.fromDst)
    && (forall f | f in w.sent :: Backed(x, f))
    && (forall m | m in w.fromSrc :: FromShard(m, true) && SrcTruth(w.srcHas, m))
    && (forall m | m in w.fromDst :: FromShard(m, false) && DstTruth(w, m))
    && (x.step == CommitDst || x.step == CommitRecovery ==> !w.srcHas)
    && (forall d | d in w.dst && !w.dst[d] :: x.step == CommitRecovery || (x.step == CommitDst && d == x.newDbid))
    && (x.step == CopySrc || x.step == CommitRecovery ==> OneCopy(w.dst))
    && (w.srcHas || w.ownerDeleted || w.dst != map[])
    && (Notify(true) in w.sent ==> !w.srcHas && SomeUnlocked(w.dst))
    && (Notify(true) in w.sent ==> DstCommitted in w.fromDst || Recovered(true) in w.fromDst)
  }

  lemma StartSafe(w: World)
    requires Start(w)
    ensures Safe(w)
  {
    var order, byVip, env :| Begin(ShardTransfer, order, byVip, env) == Out(w.r, w.sent);
    assert w.sent == [Submit];
  }

  lemma SrcSafe(w: World, m: Effect, works: bool, text: string)
    requires Safe(w) && m in w.sent
    ensures Safe(SrcHandles(w, m, works, text))
  {
    assert Backed(w.r.xfer, m);
  }

  /** The destination answers `m` after changing its copies to `dst`: it may add or unlock. */
  lemma DstAnswerSafe(w: World, dst: map<nat, bool>, m: Reply)
    requires Safe(w) && FromShard(m, false)
    requires DstTruth(w.(dst := dst), m)
    requires forall d | d in w.dst :: d in dst && (!w.dst[d] ==> !dst[d])
    requires forall d | d in dst :: d != 0
    requires forall d | d in dst && !dst[d] ::
               w.r.xfer.step == CommitRecovery || (w.r.xfer.step == CommitDst && d == w.r.xfer.newDbid)
    requires w.r.xfer.step == CopySrc || w.r.xfer.step == CommitRecovery ==> OneCopy(dst)
    ensures Safe(w.(dst := dst, fromDst := w.fromDst + [m]))
  {
    hide Backed, SrcTruth;
    var w' := w.(dst := dst, fromDst := w.fromDst + [m]);
    if SomeUnlocked(w.dst) {
      var d :| d in w.dst && !w.dst[d];
      assert d in dst && !dst[d];
    }
    forall n | n in w'.fromDst ensures FromShard(n, false) && DstTruth(w', n) {
      if n in w.fromDst { assert DstTruth(w, n); }
    }
    if w.dst != map[] {
      var d :| d in w.dst;
      assert d in dst;
    }
  }

  lemma DstSafe(w: World, m: Effect, dbid: nat, room: Reply, production: bool)
    requires Safe(w) && m in w.sent
    ensures Safe(DstHandles(w, m, dbid, room, production))
  {
    hide SrcTruth;
    assert Backed(w.r.xfer, m);
    var w' := DstHandles(w, m, dbid, room, production);
    if w' != w {
      var reply := w'.fromDst[|w.fromDst|];
      if m.ToDstRecover? && w'.dst != w.dst {
        assert dbid in w'.dst && !w'.dst[dbid];
      }
      assert w' == w.(dst := w'.dst, fromDst := w.fromDst + [reply]);
      DstAnswerSafe(w, w'.dst, reply);
    }
  }

  lemma AccountSafe(w: World, e: Event, env: Env)
    requires Safe(w) && Known(e)
    requires e.XferReply? ==> e.reply in w.fromSrc || e.reply in w.fromDst
    ensures Safe(AccountHandles(w, e, env))
  {
    AccountStepOrderly(w.r, e, env);
    hide Step1;
    var w' := AccountHandles(w, e, env);
    var x, x' := w.r.xfer, w'.r.xfer;
    assert e.XferReply? ==> if FromShard(e.reply, true) then SrcTruth(w.srcHas, e.reply) else DstTruth(w, e.reply);
    forall f | f in w'.sent ensures Backed(x', f) {
      if f in w.sent { assert Backed(x, f); } else { assert Fitting(x', f); }
    }
  }

  lemma NextSafe(w: World, a: Action, production: bool)
    requires Safe(w)
    ensures Safe(Next(w, a, production))
  {
    hide SrcHandles, DstHandles, AccountHandles;
    match a
    case SrcGets(i, works, text) => if i < |w.sent| { SrcSafe(w, w.sent[i], works, text); }
    case DstGets(i, dbid, room) => if i < |w.sent| { DstSafe(w, w.sent[i], dbid, room, production); }
    case AccountGetsSrc(i, env) => if i < |w.fromSrc| { AccountSafe(w, XferReply(w.fromSrc[i]), env); }
    case AccountGetsDst(i, env) => if i < |w.fromDst| { AccountSafe(w, XferReply(w.fromDst[i]), env); }
    case AccountRuns(e, env) => if Known(e) && !e.XferReply? { AccountSafe(w, e, env); }
    case OwnerDeletes =>
  }

  lemma {:induction false} RunSafe(w: World, acts: seq<Action>, production: bool)
    requires Start(w)
    ensures Safe(Run(w, acts, production))
  {
    if acts == [] {
      StartSafe(w);
    } else {
      RunSafe(w, acts[..|acts| - 1], production);
      NextSafe(Run(w, acts[..|acts| - 1], production), acts[|acts| - 1], production);
    }
  }

  // ---------------------------------------------------------------------
  //  What the protocol promises
  // ---------------------------------------------------------------------

  /** The character always exists somewhere, unless its owner deleted it at the source. */
  lemma NeverLost(w: World, acts: seq<Action>, production: bool)
    requires Start(w)
    ensures var z := Run(w, acts, production); z.srcHas || z.dst != map[] || z.ownerDeleted
  {
    RunSafe(w, acts, production);
  }

  /** It can be played in one place only: an unlocked copy means the source is gone, and
      no two copies are ever unlocked. */
  lemma PlayableInOnePlace(w: World, acts: seq<Action>, production: bool)
    requires Start(w)
    ensures var z := Run(w, acts, production);
            && (SomeUnlocked(z.dst) ==> !z.srcHas)
            && (forall d, d' | d in z.dst && d' in z.dst && !z.dst[d] && !z.dst[d'] :: d == d')
  {
    RunSafe(w, acts, production);
  }

  /** The source is told to delete the character only for a destination character whose
      nonzero id the destination has acknowledged, and which exists. */
  lemma DeletesOnlyAfterAck(w: World, acts: seq<Action>, production: bool, d: nat)
    requires Start(w)
    requires ToSrcCommit(d) in Run(w, acts, production).sent
    ensures var z := Run(w, acts, production); d != 0 && Created(d) in z.fromDst && d in z.dst
  {
    RunSafe(w, acts, production);
    var z := Run(w, acts, production);
    assert Backed(z.r.xfer, ToSrcCommit(d));
  }

  /** A transfer is reported successful only after the destination acknowledged a commit or a
      recovery, and it has moved: gone from the source, playable at the destination. */
  lemma SuccessMeansMoved(w: World, acts: seq<Action>, production: bool)
    requires Start(w)
    requires Notify(true) in Run(w, acts, production).sent
    ensures var z := Run(w, acts, production);
            && (DstCommitted in z.fromDst || Recovered(true) in z.fromDst)
            && !z.srcHas && SomeUnlocked(z.dst)
  {
    RunSafe(w, acts, production);
  }

  lemma NextRises(w: World, a: Action, production: bool)
    ensures StepRank(w.r.xfer.step) <= StepRank(Next(w, a, production).r.xfer.step)
    ensures Rank(w.r.phase) <= Rank(Next(w, a, production).r.phase)
  {
    hide Step1, StepRank, Rank;
    match a
    case AccountGetsSrc(i, env) => if i < |w.fromSrc| { StepFair(w.r, XferReply(w.fromSrc[i]), env); }
    case AccountGetsDst(i, env) => if i < |w.fromDst| { StepFair(w.r, XferReply(w.fromDst[i]), env); }
    case AccountRuns(e, env) => StepFair(w.r, e, env);
    case _ =>
  }

  /** Whatever the network delivers, again or late, the step and the phase only rise. */
  lemma {:induction false} StepOnlyRises(w: World, acts: seq<Action>, production: bool)
    ensures StepRank(w.r.xfer.step) <= StepRank(Run(w, acts, production).r.xfer.step)
    ensures Rank(w.r.phase) <= Rank(Run(w, acts, production).r.phase)
  {
    if acts != [] {
      hide Next, StepRank, Rank;
      StepOnlyRises(w, acts[..|acts| - 1], production);
      NextRises(Run(w, acts[..|acts| - 1], production), acts[|acts| - 1], production);
    }
  }

  // ---------------------------------------------------------------------
  //  An in-order destination link
  // ---------------------------------------------------------------------

  /** Every delivery reads on from where the destination link stands. */
  ghost predicate InOrder(w: World, acts: seq<Action>, production: bool) {
    acts == [] || (
      var before := Run(w, acts[..|acts| - 1], production);
      var a := acts[|acts| - 1];
      InOrder(w, acts[..|acts| - 1], production) && (a.DstGets? ==> before.dstRead <= a.i))
  }

  ghost predicate NoCopyAhead(sent: seq<Effect>, from: nat) {
    forall j | from <= j < |sent| :: !sent[j].ToDstCopy?
  }

  /** Once the destination has been told to unlock, no copy request follows. */
  ghost predicate Ordered(sent: seq<Effect>) {
    forall i | 0 <= i < |sent| && (sent[i].ToDstCommit? || sent[i].ToDstRecover?) :: NoCopyAhead(sent, i)
  }

  ghost predicate Single(w: World) {
    && Safe(w)
    && OneCopy(w.dst)
    && Ordered(w.sent)
    && (SomeUnlocked(w.dst) ==> NoCopyAhead(w.sent, w.dstRead))
  }

  lemma OrderedExtends(sent: seq<Effect>, x: Transfer, fx: seq<Effect>)
    requires Ordered(sent) && (forall f | f in fx :: Fitting(x, f))
    requires x.step == CopyDst ==> forall f | f in sent :: !f.ToDstCommit? && !f.ToDstRecover?
    ensures Ordered(sent + fx)
  {
    var all := sent + fx;
    forall i, j | 0 <= i <= j < |all| && (all[i].ToDstCommit? || all[i].ToDstRecover?) ensures !all[j].ToDstCopy? {
      if j < |sent| {
        assert NoCopyAhead(sent, i);
      } else {
        assert all[j] in fx;
        assert if i < |sent| then all[i] in sent else all[i] in fx;
      }
    }
  }

  lemma AccountSingle(w: World, e: Event, env: Env)
    requires Single(w) && Known(e)
    requires e.XferReply? ==> e.reply in w.fromSrc || e.reply in w.fromDst
    ensures Single(AccountHandles(w, e, env))
  {
    AccountStepOrderly(w.r, e, env);
    AccountSafe(w, e, env);
    hide Step1, SrcTruth, DstTruth;
    var out := Step1(w.r, e, env);
    var x := w.r.xfer;
    var late := x.step == CommitDst || x.step == CommitRecovery;
    assert late ==> out.r.xfer.step == x.step;
    assert forall f | f in w.sent && (f.ToDstCommit? || f.ToDstRecover?) :: Backed(x, f) && late;
    OrderedExtends(w.sent, out.r.xfer, out.fx);
    if SomeUnlocked(w.dst) {
      assert late;
      assert forall f | f in out.fx :: !f.ToDstCopy?;
    }
  }

  /** A copy request that is read in order never meets an unlocked character. */
  lemma CopyMeetsNoUnlocked(w: World, i: nat)
    requires Single(w) && w.dstRead <= i < |w.sent| && w.sent[i].ToDstCopy?
    ensures !SomeUnlocked(w.dst)
  {
    hide Safe;
  }

  /** What one message does to the destination's copies, once copy requests meet none unlocked. */
  lemma DstKeepsOneCopy(w: World, m: Effect, dbid: nat, room: Reply)
    requires OneCopy(w.dst) && (m.ToDstCopy? ==> !SomeUnlocked(w.dst))
    ensures DstHandles(w, m, dbid, room, true).sent == w.sent
    ensures OneCopy(DstHandles(w, m, dbid, room, true).dst)
    ensures m.ToDstCommit? || m.ToDstRecover? || (SomeUnlocked(DstHandles(w, m, dbid, room, true).dst) ==> SomeUnlocked(w.dst))
  {
    assert SomeUnlocked(w.dst) || SomeLocked(w.dst) || w.dst == map[];
  }

  lemma DstSingle(w: World, i: nat, dbid: nat, room: Reply)
    requires Single(w) && w.dstRead <= i < |w.sent|
    ensures Single(DstHandles(w, w.sent[i], dbid, room, true).(dstRead := i + 1))
  {
    DstSafe(w, w.sent[i], dbid, room, true);
    hide Safe, Ordered, OneCopy, SomeUnlocked, DstHandles;
    if w.sent[i].ToDstCopy? {
      CopyMeetsNoUnlocked(w, i);
    } else if w.sent[i].ToDstCommit? || w.sent[i].ToDstRecover? {
      UnlockIsLast(w.sent, i);
    }
    DstKeepsOneCopy(w, w.sent[i], dbid, room);
  }

  lemma UnlockIsLast(sent: seq<Effect>, i: nat)
    requires Ordered(sent) && i < |sent| && (sent[i].ToDstCommit? || sent[i].ToDstRecover?)
    ensures NoCopyAhead(sent, i + 1)
  {
  }

  lemma NextSingle(w: World, a: Action)
    requires Single(w) && (a.DstGets? ==> w.dstRead <= a.i)
    ensures Single(Next(w, a, true))
  {
    NextSafe(w, a, true);
    hide Safe, Ordered, NoCopyAhead, AccountHandles, DstHandles;
    match a
    case DstGets(i, dbid, room) => if i < |w.sent| { DstSingle(w, i, dbid, room); }
    case AccountGetsSrc(i, env) => if i < |w.fromSrc| { AccountSingle(w, XferReply(w.fromSrc[i]), env); }
    case AccountGetsDst(i, env) => if i < |w.fromDst| { AccountSingle(w, XferReply(w.fromDst[i]), env); }
    case AccountRuns(e, env) => if Known(e) && !e.XferReply? { AccountSingle(w, e, env); }
    case _ =>
  }

  /** Over an in-order link to a production shard, resends included, the destination
      never holds more than one character for the order. */
  lemma {:induction false} NeverCopiedTwice(w: World, acts: seq<Action>)
    requires Start(w) && InOrder(w, acts, true)
    ensures Single(Run(w, acts, true)) && OneCopy(Run(w, acts, true).dst)
  {
    if acts == [] {
      StartSafe(w);
      var order, byVip, env :| Begin(ShardTransfer, order, byVip, env) == Out(w.r, w.sent);
      assert w.sent == [Submit];
    } else {
      NeverCopiedTwice(w, acts[..|acts| - 1]);
      NextSingle(Run(w, acts[..|acts| - 1], true), acts[|acts| - 1]);
    }
  }

  /** Outside that link the copy step is not idempotent: a copy request makes a second
      character exactly when the shard is not in production or the first one is unlocked. */
  lemma SecondCopyIff(w: World, text: string, first: nat, dbid: nat, room: Reply, production: bool)
    requires w.dst.Keys == {first} && dbid != 0 && dbid != first
    ensures !OneCopy(DstHandles(w, ToDstCopy(text), dbid, room, production).dst) <==> !(production && w.dst[first])
  {
    var z := DstHandles(w, ToDstCopy(text), dbid, room, production);
    assert SomeLocked(w.dst) <==> w.dst[first];
    if !(production && w.dst[first]) {
      assert first in z.dst && dbid in z.dst;
    } else {
      assert z.dst.Keys == {first};
    }
  }
}

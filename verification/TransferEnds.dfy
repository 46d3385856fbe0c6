/**
 No state of a transfer is a dead end: from every reachable one the messages still to come can bring
 it to its verdict, and to success wherever the character can still move.
 */
module TransferEnds {
  import opened Lifecycle
  import opened LifecycleTheorems
  import opened ShardTransfer
  import opened Verdicts

  // ---------- what a live transfer keeps ----------

  /** A transfer that has not finished is live, copies only what it has, and has not begun to copy
      before both shards have confirmed. */
  predicate Sound(r: Request) {
    r.kind == Kind.ShardTransfer && (r.completed || (
      && Live(r) && (r.phase != Fulfill ==> r.xfer.step == CopySrc)
      && (r.xfer.step == CopyDst ==> |r.xfer.container| > 0)))
  }

  /** A transfer in its validation has asked both shards. */
  predicate HasAsked(w: World) {
    w.r.phase == Validate && !w.r.completed ==> ToSrcValidate in w.sent && ToDstValidate in w.sent
  }

  predicate Asks(r: Request, out: Out) {
    out.r.phase == Validate && !out.r.completed && !(r.phase == Validate && !r.completed)
    ==> ToSrcValidate in out.fx && ToDstValidate in out.fx
  }

  lemma ReplySound(r: Request, m: Reply, env: Env)
    requires Sound(r) && Live(r) && (m.Copied? ==> m.ok)
    ensures Sound(Step1(r, XferReply(m), env).r) && Asks(r, Step1(r, XferReply(m), env))
  {
  }

  lemma OwnSound(r: Request, e: Event, env: Env)
    requires Sound(r) && Live(r) && (e.Charged? || e.Due? || e.Sweep?)
    ensures Sound(Step1(r, e, env).r) && Asks(r, Step1(r, e, env))
  {
  }

  lemma StepSound(r: Request, e: Event, env: Env)
    requires Sound(r) && Known(e) && (e.XferReply? && e.reply.Copied? ==> e.reply.ok)
    ensures Sound(Step1(r, e, env).r) && Asks(r, Step1(r, e, env))
  {
    if r.completed {
      StepFair(r, e, env);
      AccountStepOrderly(r, e, env);
      hide Step1;
    } else if e.XferReply? {
      ReplySound(r, e.reply, env);
      hide Step1;
    } else {
      OwnSound(r, e, env);
      hide Step1;
    }
  }

  lemma CopiesWell(w: World, m: Reply)
    requires Safe(w) && (m in w.fromSrc || m in w.fromDst)
    ensures m.Copied? ==> m.ok
  {
    assert if m in w.fromSrc then SrcTruth(w.srcHas, m) else FromShard(m, false);
  }

  lemma SentKept(w: World, a: Action, production: bool)
    ensures a.SrcGets? || a.DstGets? ==> Next(w, a, production).sent == w.sent && Next(w, a, production).r == w.r
  {
  }

  lemma NextSound(w: World, a: Action, production: bool)
    requires Safe(w) && Sound(w.r) && HasAsked(w)
    ensures Sound(Next(w, a, production).r) && HasAsked(Next(w, a, production))
  {
    forall m | m in w.fromSrc || m in w.fromDst ensures m.Copied? ==> m.ok { CopiesWell(w, m); }
    hide Step1, Sound, Safe, SrcHandles, DstHandles;
    SentKept(w, a, production);
    match a
    case AccountGetsSrc(i, env) => if i < |w.fromSrc| { StepSound(w.r, XferReply(w.fromSrc[i]), env); }
    case AccountGetsDst(i, env) => if i < |w.fromDst| { StepSound(w.r, XferReply(w.fromDst[i]), env); }
    case AccountRuns(e, env) => if Known(e) && !e.XferReply? { StepSound(w.r, e, env); }
    case _ =>
  }

  lemma {:induction false} RunSound(w: World, acts: seq<Action>, production: bool)
    requires Start(w)
    ensures Sound(ShardTransfer.Run(w, acts, production).r) && HasAsked(ShardTransfer.Run(w, acts, production))
  {
    if acts == [] {
      var order, byVip, env :| Begin(Kind.ShardTransfer, order, byVip, env) == Out(w.r, w.sent);
      BeginIs(Kind.ShardTransfer, order, byVip, env);
    } else {
      RunSafe(w, acts[..|acts| - 1], production);
      RunSound(w, acts[..|acts| - 1], production);
      NextSound(ShardTransfer.Run(w, acts[..|acts| - 1], production), acts[|acts| - 1], production);
    }
  }

  // ---------- continuations ----------

  /** Some further deliveries lead from `z` to `w`. */
  ghost predicate Leads(z: World, w: World, production: bool) {
    exists acts :: ShardTransfer.Run(z, acts, production) == w
  }

  lemma LeadsNowhere(z: World, production: bool)
    ensures Leads(z, z, production)
  {
    assert ShardTransfer.Run(z, [], production) == z;
  }

  lemma LeadsOn(z: World, w: World, a: Action, production: bool)
    requires Leads(z, w, production)
    ensures Leads(z, Next(w, a, production), production)
  {
    var acts :| ShardTransfer.Run(z, acts, production) == w;
    assert (acts + [a])[..|acts|] == acts;
    assert ShardTransfer.Run(z, acts + [a], production) == Next(w, a, production);
  }

  /** The transfer can still end so. */
  ghost predicate CanEnd(z: World, success: bool, production: bool) {
    exists e :: Leads(z, e, production) && e.r.completed && Notify(success) in e.sent
  }

  /** A state of a live transfer that deliveries can lead to. */
  ghost predicate Underway(z: World, w: World, phase: Phase, production: bool) {
    Leads(z, w, production) && Safe(w) && Sound(w.r) && HasAsked(w) && !w.r.completed && w.r.phase == phase
  }

  lemma Goes(z: World, w: World, phase: Phase, a: Action, production: bool)
    requires Underway(z, w, phase, production)
    ensures var y := Next(w, a, production); Leads(z, y, production) && Safe(y) && Sound(y.r) && HasAsked(y)
  {
    LeadsOn(z, w, a, production);
    NextSafe(w, a, production);
    NextSound(w, a, production);
    hide Next, Safe, Sound, Leads;
  }

  predicate BothUp(env: Env) {
    env.srcUp && env.dstUp
  }

  /** The packet of the current step is sent once more. */
  lemma Resends(z: World, w: World, env: Env, production: bool) returns (y: World)
    requires Underway(z, w, Fulfill, production) && BothUp(env)
    ensures Underway(z, y, Fulfill, production)
    ensures y.srcHas == w.srcHas && y.dst == w.dst && y.r.xfer.step == w.r.xfer.step && y.r.xfer.newDbid == w.r.xfer.newDbid
    ensures |y.sent| > 0 && IsPacket(w.r, [y.sent[|y.sent| - 1]])
  {
    Goes(z, w, Fulfill, AccountRuns(Due, env), production);
    y := Next(w, AccountRuns(Due, env), production);
    ResendsIs(w.r, env);
    AccountStepOrderly(w.r, Due, env);
    hide Step1;
    assert |Step1(w.r, Due, env).fx| == 1;
  }

  /** The source answers the last packet. */
  lemma SourceAnswers(z: World, w: World, m: Reply, production: bool) returns (y: World)
    requires Underway(z, w, Fulfill, production) && |w.sent| > 0
    requires SrcHandles(w, w.sent[|w.sent| - 1], true, "x").fromSrc == w.fromSrc + [m]
    ensures Underway(z, y, Fulfill, production) && y.r == w.r && y.dst == w.dst
    ensures |y.fromSrc| > 0 && y.fromSrc[|y.fromSrc| - 1] == m
  {
    hide Leads, Safe, Sound, HasAsked;
    var a := SrcGets(|w.sent| - 1, true, "x");
    Goes(z, w, Fulfill, a, production);
    y := Next(w, a, production);
  }

  /** The destination answers the last packet. */
  lemma DestinationAnswers(z: World, w: World, dbid: nat, m: Reply, production: bool) returns (y: World)
    requires Underway(z, w, Fulfill, production) && |w.sent| > 0
    requires DstHandles(w, w.sent[|w.sent| - 1], dbid, SrcCommitted, production).fromDst == w.fromDst + [m]
    ensures Underway(z, y, Fulfill, production) && y.r == w.r && y.srcHas == w.srcHas
    ensures |y.fromDst| > 0 && y.fromDst[|y.fromDst| - 1] == m
  {
    hide Leads, Safe, Sound, HasAsked;
    var a := DstGets(|w.sent| - 1, dbid, SrcCommitted);
    Goes(z, w, Fulfill, a, production);
    y := Next(w, a, production);
  }

  /** A verdict that is told ends the transfer. */
  lemma Ends(z: World, w: World, a: Action, success: bool, production: bool)
    requires Leads(z, w, production) && Next(w, a, production).r.completed && Notify(success) in Next(w, a, production).sent
    ensures CanEnd(z, success, production)
  {
    LeadsOn(z, w, a, production);
  }

  lemma VerdictEnds(r: Request, m: Reply, env: Env)
    requires Live(r) && r.kind == Kind.ShardTransfer && r.phase == Fulfill && BothUp(env)
    requires (r.xfer.step == CommitDst && m == DstCommitted) || (r.xfer.step == CommitRecovery && m.Recovered?)
    ensures var out := Step1(r, XferReply(m), env); out.r.completed && Notify(m == DstCommitted || m == Recovered(true)) in out.fx
  {
  }

  lemma UnderwayLive(z: World, w: World, phase: Phase, production: bool)
    requires Underway(z, w, phase, production)
    ensures Live(w.r) && w.r.kind == Kind.ShardTransfer && Leads(z, w, production)
  {
    hide Leads;
  }

  /** The account server reads a verdict. */
  lemma VerdictRead(z: World, w: World, m: Reply, env: Env, production: bool)
    requires Underway(z, w, Fulfill, production) && BothUp(env)
    requires |w.fromDst| > 0 && w.fromDst[|w.fromDst| - 1] == m
    requires (w.r.xfer.step == CommitDst && m == DstCommitted) || (w.r.xfer.step == CommitRecovery && m.Recovered?)
    ensures CanEnd(z, m == DstCommitted || m == Recovered(true), production)
  {
    hide Safe, Leads, HasAsked;
    UnderwayLive(z, w, Fulfill, production);
    VerdictEnds(w.r, m, env);
    hide Step1, Sound, CanEnd;
    Ends(z, w, AccountGetsDst(|w.fromDst| - 1, env), m == DstCommitted || m == Recovered(true), production);
  }

  /** A destination that has a locked character finds it. */
  lemma Finds(w: World, production: bool) returns (dbid: nat)
    ensures DstHandles(w, ToDstRecover, dbid, SrcCommitted, production).fromDst == w.fromDst + [Recovered(SomeLocked(w.dst))]
  {
    if SomeLocked(w.dst) { dbid :| dbid in w.dst && w.dst[dbid]; } else { dbid := 0; }
  }

  lemma FromCommitDst(z: World, w: World, env: Env, production: bool)
    requires Underway(z, w, Fulfill, production) && BothUp(env) && w.r.xfer.step == CommitDst
    ensures CanEnd(z, true, production)
  {
    var y := Resends(z, w, env, production);
    hide Underway, CanEnd;
    var t := DestinationAnswers(z, y, 0, DstCommitted, production);
    VerdictRead(z, t, DstCommitted, env, production);
  }

  lemma FromRecovery(z: World, w: World, env: Env, production: bool)
    requires Underway(z, w, Fulfill, production) && BothUp(env) && w.r.xfer.step == CommitRecovery
    ensures CanEnd(z, SomeLocked(w.dst), production)
  {
    var y := Resends(z, w, env, production);
    hide Underway, CanEnd;
    var dbid := Finds(y, production);
    hide DstHandles;
    var t := DestinationAnswers(z, y, dbid, Recovered(SomeLocked(w.dst)), production);
    VerdictRead(z, t, Recovered(SomeLocked(w.dst)), env, production);
  }

  lemma FromCommitSrc(z: World, w: World, env: Env, production: bool)
    requires Underway(z, w, Fulfill, production) && BothUp(env) && w.r.xfer.step == CommitSrc
    ensures CanEnd(z, true, production)
  {
    var y := Resends(z, w, env, production);
    var t := SourceAnswers(z, y, SrcCommitted, production);
    var u := Replied(z, t, SrcCommitted, env, production);
    FromCommitDst(z, u, env, production);
  }

  predicate Awaited(step: Step, m: Reply) {
    || (step == CopySrc && m.Copied? && m.ok)
    || (step == CopyDst && m.Created?)
    || (step == CommitSrc && m == SrcCommitted)
  }

  function After(m: Reply): Step {
    if m.Created? then CommitSrc else if m.SrcCommitted? then CommitDst
    else if m.Copied? && m.text == "" then CommitRecovery else CopyDst
  }

  lemma AwaitedIs(r: Request, m: Reply, env: Env)
    requires Live(r) && r.kind == Kind.ShardTransfer && r.phase == Fulfill && BothUp(env) && Awaited(r.xfer.step, m)
    ensures var out := Step1(r, XferReply(m), env); !out.r.completed && out.r.phase == Fulfill && out.r.xfer.step == After(m)
  {
    ReplyIs(r, m, env);
    hide Step1;
  }

  /** The account server reads the last answer. */
  lemma Replied(z: World, w: World, m: Reply, env: Env, production: bool) returns (y: World)
    requires Underway(z, w, Fulfill, production) && BothUp(env)
    requires if FromShard(m, true) then |w.fromSrc| > 0 && w.fromSrc[|w.fromSrc| - 1] == m
             else |w.fromDst| > 0 && w.fromDst[|w.fromDst| - 1] == m
    requires Awaited(w.r.xfer.step, m)
    ensures Underway(z, y, Fulfill, production) && y.srcHas == w.srcHas && y.dst == w.dst
    ensures y.r.xfer.step == After(m)
  {
    hide Safe, Leads, HasAsked, Sound, Step1;
    UnderwayLive(z, w, Fulfill, production);
    AwaitedIs(w.r, m, env);
    hide Awaited, After;
    var a := if FromShard(m, true) then AccountGetsSrc(|w.fromSrc| - 1, env) else AccountGetsDst(|w.fromDst| - 1, env);
    Goes(z, w, Fulfill, a, production);
    y := Next(w, a, production);
  }

  lemma FromCopyDst(z: World, w: World, env: Env, production: bool)
    requires Underway(z, w, Fulfill, production) && BothUp(env) && w.r.xfer.step == CopyDst
    ensures CanEnd(z, true, production)
  {
    var y := Resends(z, w, env, production);
    var dbid := CopyId(y.dst, production);
    assert forall d | d in y.dst :: d != 0;
    var t := DestinationAnswers(z, y, dbid, Created(dbid), production);
    var u := Replied(z, t, Created(dbid), env, production);
    FromCommitSrc(z, u, env, production);
  }

  /** The id under which a copy is acknowledged: that of a locked one if it is looked up, else a new one. */
  lemma CopyId(dst: map<nat, bool>, production: bool) returns (dbid: nat)
    ensures if production && SomeLocked(dst) then dbid in dst && dst[dbid] else dbid != 0 && dbid !in dst
  {
    if production && SomeLocked(dst) {
      dbid :| dbid in dst && dst[dbid];
    } else {
      dbid := Unused(dst.Keys);
    }
  }

  lemma Unused(ids: set<nat>) returns (id: nat)
    ensures id != 0 && id !in ids
  {
    var top: nat := 0;
    var rest := ids;
    while rest != {}
      invariant rest <= ids && forall d | d in ids && d !in rest :: d <= top
      decreases |rest|
    {
      var d :| d in rest;
      rest := rest - {d};
      top := if d > top then d else top;
    }
    id := top + 1;
  }

  lemma FromCopySrc(z: World, w: World, env: Env, production: bool)
    requires Underway(z, w, Fulfill, production) && BothUp(env) && w.r.xfer.step == CopySrc
    ensures CanEnd(z, w.srcHas || SomeLocked(w.dst), production)
  {
    var y := Resends(z, w, env, production);
    var text := if w.srcHas then "x" else "";
    var t := SourceAnswers(z, y, Copied(true, text), production);
    var u := Replied(z, t, Copied(true, text), env, production);
    if w.srcHas { FromCopyDst(z, u, env, production); } else { FromRecovery(z, u, env, production); }
  }

  // ---------- from the charge on ----------

  /** The source still has the character, so it says so. */
  lemma SourceYes(z: World, w: World, env: Env, production: bool) returns (y: World)
    requires Underway(z, w, Validate, production) && BothUp(env) && w.srcHas
    ensures y.srcHas && (Underway(z, y, Fulfill, production) || Underway(z, y, Validate, production))
    ensures y.r.xfer.step == CopySrc && y.r.xfer.srcConfirmed
  {
    var i :| 0 <= i < |w.sent| && w.sent[i] == ToSrcValidate;
    Goes(z, w, Validate, SrcGets(i, true, ""), production);
    var t := Next(w, SrcGets(i, true, ""), production);
    Goes(z, t, Validate, AccountGetsSrc(|t.fromSrc| - 1, env), production);
    y := Next(t, AccountGetsSrc(|t.fromSrc| - 1, env), production);
    hide Safe, Leads;
    ConfirmIs(w.r, ValidSrc(true), env);
    hide Step1;
  }

  lemma UnderwayStep(z: World, w: World, production: bool)
    requires Underway(z, w, Validate, production)
    ensures w.r.xfer.step == CopySrc
  {
    hide Leads, Safe;
  }

  /** The destination may have room. */
  lemma RoomAnswered(z: World, w: World, room: Reply, production: bool) returns (y: World)
    requires Underway(z, w, Validate, production) && room.ValidDst?
    ensures Underway(z, y, Validate, production) && y.r == w.r && y.srcHas == w.srcHas
    ensures |y.fromDst| > 0 && y.fromDst[|y.fromDst| - 1] == room
  {
    var i :| 0 <= i < |w.sent| && w.sent[i] == ToDstValidate;
    Goes(z, w, Validate, DstGets(i, 0, room), production);
    y := Next(w, DstGets(i, 0, room), production);
    hide Safe, Leads, Sound, HasAsked;
  }

  lemma DestinationYes(z: World, w: World, env: Env, production: bool) returns (y: World)
    requires Underway(z, w, Validate, production) && BothUp(env) && w.r.xfer.srcConfirmed
    ensures y.srcHas == w.srcHas && Underway(z, y, Fulfill, production) && y.r.xfer.step == CopySrc
  {
    hide Safe, Leads, Sound, HasAsked, Step1;
    var room := ValidDst(0, 0, 1, 1, false);
    var t := RoomAnswered(z, w, room, production);
    UnderwayLive(z, t, Validate, production);
    UnderwayStep(z, t, production);
    ConfirmIs(t.r, room, env);
    Goes(z, t, Validate, AccountGetsDst(|t.fromDst| - 1, env), production);
    y := Next(t, AccountGetsDst(|t.fromDst| - 1, env), production);
  }

  lemma FromValidate(z: World, w: World, env: Env, production: bool)
    requires Underway(z, w, Validate, production) && BothUp(env) && w.srcHas
    ensures CanEnd(z, true, production)
  {
    hide Underway, CanEnd;
    var y := SourceYes(z, w, env, production);
    if !Underway(z, y, Fulfill, production) { y := DestinationYes(z, y, env, production); }
    FromCopySrc(z, y, env, production);
  }

  lemma FromCharge(z: World, w: World, env: Env, production: bool)
    requires Underway(z, w, Charge, production) && BothUp(env) && w.srcHas
    ensures CanEnd(z, true, production)
  {
    var a := AccountRuns(Event.Charged(true), env);
    Goes(z, w, Charge, a, production);
    StartIs(w.r, env);
    hide Step1, CanEnd;
    FromValidate(z, Next(w, a, production), env, production);
  }

  /** Before the copy begins a transfer can be left to time out. */
  lemma FromTimeout(z: World, w: World, phase: Phase, env: Env, production: bool)
    requires Underway(z, w, phase, production) && phase != Fulfill
    ensures CanEnd(z, false, production)
  {
    hide Safe, Leads, HasAsked;
    TimesOut(w.r, env);
    hide Step1;
    Ends(z, w, AccountRuns(Due, env), false, production);
  }

  lemma TimesOut(r: Request, env: Env)
    requires Live(r) && r.phase != Fulfill
    ensures Step1(r, Due, env).r.completed && Notify(false) in Step1(r, Due, env).fx
  {
  }

  /** Where the character can still move: the source has it, or the copy has begun and the
      destination has a locked one or makes one. */
  predicate CanMove(w: World) {
    w.srcHas || (w.r.phase == Fulfill &&
      match w.r.xfer.step
      case CopyDst | CommitSrc | CommitDst => true
      case CopySrc | CommitRecovery => SomeLocked(w.dst))
  }

  /** From every reachable state of a transfer that has not finished, some further deliveries bring it to
      success if the character can still move, and to a failure otherwise. */
  lemma NoDeadEnd(w: World, acts: seq<Action>, env: Env, production: bool)
    requires Start(w) && BothUp(env)
    ensures var z := ShardTransfer.Run(w, acts, production);
            z.r.completed || CanEnd(z, CanMove(z), production)
  {
    var z := ShardTransfer.Run(w, acts, production);
    RunSafe(w, acts, production);
    RunSound(w, acts, production);
    LeadsNowhere(z, production);
    if !z.r.completed {
      assert Underway(z, z, z.r.phase, production);
      FromAnywhere(z, env, production);
    }
  }

  lemma RecoveryLetGo(w: World)
    requires Safe(w) && w.r.xfer.step == CommitRecovery
    ensures !w.srcHas
  {
  }

  lemma FromAnywhere(z: World, env: Env, production: bool)
    requires Underway(z, z, z.r.phase, production) && BothUp(env)
    ensures CanEnd(z, CanMove(z), production)
  {
    hide CanEnd, Safe, Sound, Leads, HasAsked;
    if z.r.phase == Charge {
      if z.srcHas { FromCharge(z, z, env, production); } else { FromTimeout(z, z, Charge, env, production); }
    } else if z.r.phase == Validate {
      if z.srcHas { FromValidate(z, z, env, production); } else { FromTimeout(z, z, Validate, env, production); }
    } else {
      match z.r.xfer.step
      case CopySrc => FromCopySrc(z, z, env, production);
      case CopyDst => FromCopyDst(z, z, env, production);
      case CommitSrc => FromCommitSrc(z, z, env, production);
      case CommitDst => FromCommitDst(z, z, env, production);
      case CommitRecovery => RecoveryLetGo(z); FromRecovery(z, z, env, production);
    }
  }
}

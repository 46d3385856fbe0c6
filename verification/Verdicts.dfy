/**
 Which answers a request takes for a success and which for a failure, told by the event, the
 kind of request, its phase and its step; what a transfer that nothing disturbs sends from
 its charge to its end; and that none starts without room for the character.
 */
module Verdicts {
  import opened Lifecycle
  import opened LifecycleTheorems

  /** A live request: in the index, and so not finished, and in an active list. */
  predicate Live(r: Request) {
    r.indexed && !r.completed && r.place.Active?
  }

  // ---------- success ----------

  /** The answers that say an order has been fulfilled. */
  predicate SaysFulfilled(r: Request, e: Event) {
    || e == Finished(true)
    || (r.kind == Slot && e == SlotReply(true))
    || (r.kind == Rename && r.phase == Fulfill && e == RenameReply(false, true))
    || (r.kind == Respec && r.phase == Fulfill && e == RespecReply(false, true))
    || (r.kind == ShardTransfer && r.phase == Fulfill && r.xfer.step == CommitDst && e == XferReply(DstCommitted))
    || (r.kind == ShardTransfer && r.phase == Fulfill && r.xfer.step == CommitRecovery && e == XferReply(Recovered(true)))
  }

  // ---------- failure ----------

  /** The links the request's packets need. */
  predicate LinksUp(r: Request, env: Env) {
    env.srcUp && (r.kind == ShardTransfer ==> env.dstUp)
  }

  /** The destination has a free slot for the character, and lets the owner in. */
  predicate HasRoom(byVip: bool, m: Reply) {
    m.ValidDst? && m.unlockedUsed < m.accountMax && m.totalUsed < m.serverMax && (m.vipOnly ==> byVip)
  }

  /** The answers that say an order cannot be fulfilled. */
  predicate SaysImpossible(r: Request, e: Event) {
    || e == Event.Charged(false) || e == Finished(false)
    || (r.kind == Slot && e == SlotReply(false))
    || (r.kind == Rename && r.phase == Validate && e == RenameReply(true, false))
    || (r.kind == Rename && r.phase == Fulfill && e == RenameReply(false, false))
    || (r.kind == Respec && r.phase == Validate && e == RespecReply(true, false))
    || (r.kind == Respec && r.phase == Fulfill && e == RespecReply(false, false))
    || (r.kind == ShardTransfer && r.phase == Validate && e == XferReply(ValidSrc(false)))
    || (r.kind == ShardTransfer && r.phase == Validate && e.XferReply? && e.reply.ValidDst? && !HasRoom(r.byVip, e.reply))
    || (r.kind == ShardTransfer && r.phase == Fulfill && r.xfer.step == CopySrc && e.XferReply? && e.reply.Copied? && !e.reply.ok)
    || (r.kind == ShardTransfer && r.phase == Fulfill && r.xfer.step == CommitRecovery && e == XferReply(Recovered(false)))
  }

  /** The answers that let the order go on, so that a packet is to be sent. */
  predicate GoesOn(r: Request, e: Event) {
    || (r.phase == Charge && e == Event.Charged(true))
    || (r.kind == Rename && r.phase == Validate && e == RenameReply(true, true))
    || (r.kind == Respec && r.phase == Validate && e == RespecReply(true, true))
    || (r.kind == ShardTransfer && r.phase == Validate && e == XferReply(ValidSrc(true)) && r.xfer.dstConfirmed)
    || (r.kind == ShardTransfer && r.phase == Validate && e.XferReply? && HasRoom(r.byVip, e.reply) && r.xfer.srcConfirmed)
    || (r.kind == ShardTransfer && r.phase == Fulfill && e.XferReply?
        && ((r.xfer.step == CopySrc && e.reply.Copied? && e.reply.ok)
            || (r.xfer.step == CopyDst && e.reply.Created?)
            || (r.xfer.step == CommitSrc && e.reply == SrcCommitted)))
  }

  /** The request has waited too long for its charge or its validation, or a link it needs is down. */
  predicate GivesUp(r: Request, e: Event, env: Env) {
    || (e == Due && r.phase != Fulfill)
    || (e == Due && r.phase == Fulfill && !LinksUp(r, env))
    || (GoesOn(r, e) && !LinksUp(r, env))
  }

  /** What effects announce, and that an order is reverted with its failure. */
  predicate Told(order: nat, fx: seq<Effect>, yes: bool, no: bool) {
    && (Notify(true) in fx <==> yes) && (Notify(false) in fx <==> no)
    && (Revert in fx <==> no && order != 0)
  }

  lemma CompleteTold(r: Request, success: bool)
    requires !r.completed
    ensures Told(r.order, Complete(r, success).fx, success, !success) && Save !in Complete(r, success).fx
  {
  }

  lemma NothingTold(order: nat)
    ensures Told(order, [], false, false)
  {
  }

  lemma FulfillTold(r: Request, env: Env)
    requires !r.completed
    ensures Told(r.order, StateFulfill(r, env).fx, false, !LinksUp(r, env)) && Save !in StateFulfill(r, env).fx
  {
  }

  lemma RunTold(r: Request, timeout: bool, env: Env)
    requires !r.completed
    ensures Told(r.order, RunState(r, timeout, env).fx, false,
                 (timeout && r.phase != Fulfill) || (r.phase != Charge && !LinksUp(r, env)))
    ensures Save !in RunState(r, timeout, env).fx
  {
    FulfillTold(r, env);
    FulfillTold(r.(phase := Fulfill), env);
    CompleteTold(r, false);
    hide StateFulfill, Complete;
  }

  /** Entering a phase fails exactly if it sends over a link that is down. */
  lemma ChangeTold(r: Request, phase: Phase, env: Env)
    requires !r.completed
    ensures Told(r.order, ChangeState(r, phase, env).fx, false, phase != Charge && !LinksUp(r, env))
    ensures Save !in ChangeState(r, phase, env).fx
  {
    RunTold(r.(phase := phase), false, env);
    hide RunState, Told;
  }

  lemma DueTold(r: Request, env: Env)
    requires !r.completed
    ensures Told(r.order, RunDue(r, env).fx, false, r.phase != Fulfill || !LinksUp(r, env)) && Save !in RunDue(r, env).fx
  {
    RunTold(r, true, env);
    hide RunState, Told;
  }

  /** An event as its verdict says, and a save for a fulfilled slot alone. */
  predicate Judged(r: Request, e: Event, env: Env) {
    var fx := Step1(r, e, env).fx;
    Told(r.order, fx, SaysFulfilled(r, e), SaysImpossible(r, e) || GivesUp(r, e, env))
    && (Save in fx <==> r.kind == Slot && e == SlotReply(true))
  }

  lemma ValidJudged(r: Request, m: Reply, env: Env)
    requires Live(r) && r.kind == ShardTransfer && (m.ValidSrc? || m.ValidDst?)
    ensures Judged(r, XferReply(m), env)
  {
    var x := if m.ValidSrc? then r.xfer.(srcConfirmed := true) else r.xfer.(dstConfirmed := true);
    ChangeTold(r.(xfer := x), Fulfill, env);
    CompleteTold(r, false);
    NothingTold(r.order);
    hide ChangeState, Complete, Told;
  }

  lemma FulfillJudged(r: Request, m: Reply, env: Env)
    requires Live(r) && r.kind == ShardTransfer && !m.ValidSrc? && !m.ValidDst?
    ensures Judged(r, XferReply(m), env)
  {
    var cleared := r.(xfer := r.xfer.(container := ""));
    ChangeTold(r.(xfer := NextXfer(r.xfer, m)), Fulfill, env);
    CompleteTold(r, true);
    CompleteTold(r, false);
    CompleteTold(cleared, false);
    NothingTold(r.order);
    hide ChangeState, Complete, Told;
  }

  lemma TwoPhaseJudged(r: Request, e: Event, env: Env)
    requires Live(r) && (e.RenameReply? || e.RespecReply?)
    ensures Judged(r, e, env)
  {
    ChangeTold(r, Fulfill, env);
    CompleteTold(r, true);
    CompleteTold(r, false);
    NothingTold(r.order);
    hide ChangeState, Complete, Told;
  }

  lemma SlotJudged(r: Request, ok: bool, env: Env)
    requires Live(r)
    ensures Judged(r, SlotReply(ok), env)
  {
    CompleteTold(r, ok);
    hide Complete;
  }

  lemma PlainJudged(r: Request, e: Event, env: Env)
    requires Live(r) && (e.Charged? || e.Due? || e.Sweep? || e.Finished?)
    ensures Judged(r, e, env)
  {
    ChangeTold(r, Validate, env);
    DueTold(r, env);
    CompleteTold(r, true);
    CompleteTold(r, false);
    NothingTold(r.order);
    hide ChangeState, RunDue, Complete, Told;
  }

  /** A live request announces a success exactly at an answer that says so, and a failure exactly at
      one that says the opposite, at a time-out, or at a packet it cannot send; a failure, and only
      a failure, reverts the order. */
  lemma VerdictIff(r: Request, e: Event, env: Env)
    requires Live(r)
    ensures Notify(true) in Step1(r, e, env).fx <==> SaysFulfilled(r, e)
    ensures Notify(false) in Step1(r, e, env).fx <==> SaysImpossible(r, e) || GivesUp(r, e, env)
    ensures Revert in Step1(r, e, env).fx <==> r.order != 0 && (SaysImpossible(r, e) || GivesUp(r, e, env))
    ensures Save in Step1(r, e, env).fx <==> r.kind == Slot && e == SlotReply(true)
  {
    hide Step1, SaysFulfilled, SaysImpossible, GivesUp;
    match e
    case RenameReply(_, _) => TwoPhaseJudged(r, e, env);
    case RespecReply(_, _) => TwoPhaseJudged(r, e, env);
    case SlotReply(ok) => SlotJudged(r, ok, env);
    case XferReply(m) => TransferJudged(r, m, env);
    case _ => PlainJudged(r, e, env);
  }

  lemma TransferJudged(r: Request, m: Reply, env: Env)
    requires Live(r)
    ensures Judged(r, XferReply(m), env)
  {
    if r.kind != ShardTransfer {
      NothingTold(r.order);
    } else if m.ValidSrc? || m.ValidDst? {
      ValidJudged(r, m, env);
    } else {
      FulfillJudged(r, m, env);
    }
  }

  // ---------- over whole runs ----------

  lemma AdvanceLive(h: History, p: Happening)
    requires (h.r.indexed <==> !h.r.completed) && (!h.r.completed ==> h.r.place.Active?)
    ensures var z := Advance(h, p).r; (z.indexed <==> !z.completed) && (!z.completed ==> z.place.Active?)
  {
    hide Step1;
    StepFair(h.r, p.event, p.env);
  }

  lemma BeginIs(kind: Kind, order: nat, byVip: bool, env: Env)
    ensures var out := Begin(kind, order, byVip, env);
            && out.fx == [Submit] && Live(out.r) && out.r.phase == Charge && out.r.nextTick == env.now + 300
            && out.r.kind == kind && out.r.order == order && out.r.byVip == byVip
            && !out.r.xfer.srcConfirmed && !out.r.xfer.dstConfirmed && out.r.xfer.step == CopySrc
  {
  }

  /** A recovered order is never charged: it asks for what its kind asks for first, or fails on a lost link. */
  lemma ResumeIs(kind: Kind, order: nat, byVip: bool, env: Env)
    ensures var out := Resume(kind, order, byVip, env);
            && out.r.kind == kind && out.r.order == order && out.r.byVip == byVip
            && out.r.phase == (if kind == Rename || kind == Respec || kind == ShardTransfer then Validate else Fulfill)
            && out.r.nextTick == env.now + (if out.r.phase == Validate then 30 else 300) && out.r.place == Active(out.r.phase)
            && !out.r.xfer.srcConfirmed && !out.r.xfer.dstConfirmed && out.r.xfer.step == CopySrc
            && out.r.completed == !LinksUp(out.r, env) && out.r.indexed == LinksUp(out.r, env)
            && out.fx == if !LinksUp(out.r, env) then (if order != 0 then [Revert] else []) + [Notify(false)]
                         else if kind == Rename || kind == Respec then [AskValid]
                         else if kind == ShardTransfer then [ToSrcValidate, ToDstValidate]
                         else [AskFulfill]
  {
    hide RunDue;
    match kind
    case Rename => case Respec => case ShardTransfer => case _ =>
  }

  /** A request that has just been started. */
  ghost predicate Begun(h: History) {
    exists kind, order, byVip, env :: Begin(kind, order, byVip, env) == Out(h.r, [Submit]) && h.log == [Fx(Submit)]
  }

  lemma {:induction false} RunLive(h: History, ps: seq<Happening>)
    requires (h.r.indexed <==> !h.r.completed) && (!h.r.completed ==> h.r.place.Active?)
    ensures var z := Run(h, ps).r;
            (z.indexed <==> !z.completed) && (!z.completed ==> z.place.Active?) && z.order == h.r.order && z.kind == h.r.kind && z.byVip == h.r.byVip
  {
    if ps != [] {
      var before, p := Run(h, ps[..|ps| - 1]), ps[|ps| - 1];
      RunLive(h, ps[..|ps| - 1]);
      AdvanceLive(before, p);
      StepFair(before.r, p.event, p.env);
      KeepsVip(before.r, p.event, p.env);
      hide Step1;
    }
  }

  lemma KeepsVip(r: Request, e: Event, env: Env)
    ensures Step1(r, e, env).r.byVip == r.byVip
  {
    hide ChangeState, RunDue;
    DueKeepsVip(r, env);
    ChangeKeepsVip(r, Validate, env);
    ChangeKeepsVip(r, Fulfill, env);
    ChangeKeepsVip(r.(xfer := r.xfer.(srcConfirmed := true)), Fulfill, env);
    ChangeKeepsVip(r.(xfer := r.xfer.(dstConfirmed := true)), Fulfill, env);
    if e.XferReply? {
      ChangeKeepsVip(r.(xfer := NextXfer(r.xfer, e.reply)), Fulfill, env);
    }
  }

  lemma RunKeepsVip(r: Request, timeout: bool, env: Env)
    ensures RunState(r, timeout, env).r.byVip == r.byVip
  {
  }

  lemma ChangeKeepsVip(r: Request, phase: Phase, env: Env)
    ensures ChangeState(r, phase, env).r.byVip == r.byVip
  {
    RunKeepsVip(r.(phase := phase), false, env);
    hide RunState;
  }

  lemma DueKeepsVip(r: Request, env: Env)
    ensures RunDue(r, env).r.byVip == r.byVip
  {
    RunKeepsVip(r, true, env);
    hide RunState;
  }

  /** At place k of the run the live request gets an answer that says it is fulfilled. */
  ghost predicate FulfilledAt(h: History, ps: seq<Happening>, k: nat) {
    k < |ps| && Live(Run(h, ps[..k]).r) && SaysFulfilled(Run(h, ps[..k]).r, ps[k].event)
  }

  /** At place k of the run the live request gets an answer that says it cannot be fulfilled, or gives up. */
  ghost predicate FailedAt(h: History, ps: seq<Happening>, k: nat) {
    && k < |ps| && Live(Run(h, ps[..k]).r)
    && (SaysImpossible(Run(h, ps[..k]).r, ps[k].event) || GivesUp(Run(h, ps[..k]).r, ps[k].event, ps[k].env))
  }

  ghost predicate EverFulfilled(h: History, ps: seq<Happening>) {
    exists k :: FulfilledAt(h, ps, k)
  }

  ghost predicate EverFailed(h: History, ps: seq<Happening>) {
    exists k :: FailedAt(h, ps, k)
  }

  lemma EverLast(h: History, most: seq<Happening>, p: Happening)
    ensures var r := Run(h, most).r;
            && (EverFulfilled(h, most + [p]) <==> EverFulfilled(h, most) || (Live(r) && SaysFulfilled(r, p.event)))
            && (EverFailed(h, most + [p]) <==>
                EverFailed(h, most) || (Live(r) && (SaysImpossible(r, p.event) || GivesUp(r, p.event, p.env))))
  {
    hide Run, SaysFulfilled, SaysImpossible, GivesUp, Live;
    var ps := most + [p];
    assert ps[..|most|] == most && ps[|most|] == p;
    forall k: nat | k < |most| ensures ps[..k] == most[..k] && ps[k] == most[k] {}
    if EverFulfilled(h, most) {
      var k: nat :| FulfilledAt(h, most, k);
      assert FulfilledAt(h, ps, k);
    }
    if EverFailed(h, most) {
      var k: nat :| FailedAt(h, most, k);
      assert FailedAt(h, ps, k);
    }
    assert Live(Run(h, most).r) && SaysFulfilled(Run(h, most).r, p.event) ==> FulfilledAt(h, ps, |most|);
    assert Live(Run(h, most).r) && (SaysImpossible(Run(h, most).r, p.event) || GivesUp(Run(h, most).r, p.event, p.env))
           ==> FailedAt(h, ps, |most|);
    if EverFulfilled(h, ps) {
      var k: nat :| FulfilledAt(h, ps, k);
      assert k < |most| ==> FulfilledAt(h, most, k);
    }
    if EverFailed(h, ps) {
      var k: nat :| FailedAt(h, ps, k);
      assert k < |most| ==> FailedAt(h, most, k);
    }
  }

  lemma LogHas(log: seq<Item>, e: Event, fx: seq<Effect>, f: Effect)
    ensures Fx(f) in log + [In(e)] + Items(fx) <==> Fx(f) in log || f in fx
  {
    if f in fx {
      var i :| 0 <= i < |fx| && fx[i] == f;
      assert Items(fx)[i] == Fx(f);
    }
  }

  /** A finished request announces and reverts nothing more. */
  lemma FinishedQuiet(r: Request, e: Event, env: Env)
    requires !Live(r) && (r.indexed <==> !r.completed) && (!r.completed ==> r.place.Active?)
    ensures forall f | f in Step1(r, e, env).fx :: !f.Notify? && !f.Revert?
  {
    hide Step1;
    StepFair(r, e, env);
  }

  /** Over every run of a request that was started: it is announced as a success exactly if, while it
      was live, some answer said so, and as a failure, and reverted, exactly if some answer said the
      opposite, a time ran out or a packet could not be sent. */
  lemma {:induction false} RunVerdictIff(h: History, ps: seq<Happening>)
    requires Begun(h)
    ensures Fx(Notify(true)) in Run(h, ps).log <==> EverFulfilled(h, ps)
    ensures Fx(Notify(false)) in Run(h, ps).log <==> EverFailed(h, ps)
    ensures Fx(Revert) in Run(h, ps).log <==> h.r.order != 0 && EverFailed(h, ps)
  {
    BegunLive(h);
    if ps != [] {
      var most, p := ps[..|ps| - 1], ps[|ps| - 1];
      assert ps == most + [p];
      var before := Run(h, most);
      RunVerdictIff(h, most);
      RunLive(h, most);
      EverLast(h, most, p);
      var fx := Step1(before.r, p.event, p.env).fx;
      LogHas(before.log, p.event, fx, Notify(true));
      LogHas(before.log, p.event, fx, Notify(false));
      LogHas(before.log, p.event, fx, Revert);
      if Live(before.r) { VerdictIff(before.r, p.event, p.env); } else { FinishedQuiet(before.r, p.event, p.env); }
      hide Step1, EverFulfilled, EverFailed, Begun, SaysFulfilled, SaysImpossible, GivesUp;
    }
  }

  lemma BegunLive(h: History)
    requires Begun(h)
    ensures Live(h.r) && h.log == [Fx(Submit)] && !EverFulfilled(h, []) && !EverFailed(h, [])
  {
    var kind, order, byVip, env :| Begin(kind, order, byVip, env) == Out(h.r, [Submit]);
    BeginIs(kind, order, byVip, env);
  }

  /** Once the final commit of a transfer is acknowledged the order is a success for good: nothing that
      comes after it, late, doubled or contrary, reverts it or announces a failure. */
  lemma CommitIsFinal(h: History, ps: seq<Happening>, env: Env, more: seq<Happening>)
    requires Begun(h) && Live(Run(h, ps).r)
    requires Run(h, ps).r.kind == ShardTransfer && Run(h, ps).r.phase == Fulfill && Run(h, ps).r.xfer.step == CommitDst
    ensures var log := Run(h, ps + [Happening(XferReply(DstCommitted), env)] + more).log;
            Fx(Notify(true)) in log && Fx(Revert) !in log && Fx(Notify(false)) !in log
  {
    var all := ps + [Happening(XferReply(DstCommitted), env)] + more;
    assert all[..|ps|] == ps;
    assert FulfilledAt(h, all, |ps|) by { hide Run; }
    RunVerdictIff(h, all);
    BegunIsStarted(h);
    FinishesOnce(h, false, all);
    assert Count(Run(h, all).log, Notify(true)) >= 1;
    hide Run;
  }

  lemma BegunIsStarted(h: History)
    requires Begun(h)
    ensures Started(h, false)
  {
    var kind, order, byVip, env :| Begin(kind, order, byVip, env) == Out(h.r, [Submit]) && h.log == [Fx(Submit)];
    BeginStarted(kind, order, byVip, env);
    assert Items([Submit]) == [Fx(Submit)];
    hide Begin;
  }

  // ---------- packets and timers ----------

  /** The packet of a fulfilment step; a step that lacks its payload sends none. */
  predicate IsPacket(r: Request, fx: seq<Effect>) {
    if r.kind != ShardTransfer then fx == [AskFulfill]
    else
      match r.xfer.step
      case CopySrc => fx == [ToSrcCopy]
      case CopyDst => if |r.xfer.container| == 0 then fx == [] else fx == [ToDstCopy(r.xfer.container)]
      case CommitSrc => if r.xfer.newDbid == 0 then fx == [] else fx == [ToSrcCommit(r.xfer.newDbid)]
      case CommitDst => fx == [ToDstCommit(r.xfer.newDbid)]
      case CommitRecovery => fx == [ToDstRecover]
  }

  /** Five minutes without an answer, and the packet of the step the request is at is sent again; a
      character that is asked for again is no longer held. */
  lemma ResendsIs(r: Request, env: Env)
    requires Live(r) && r.phase == Fulfill && LinksUp(r, env)
    ensures IsPacket(r, Step1(r, Due, env).fx)
    ensures Live(Step1(r, Due, env).r) && Step1(r, Due, env).r.phase == Fulfill
    ensures var asked := r.kind == ShardTransfer && r.xfer.step == CopySrc;
            Step1(r, Due, env).r.xfer == if asked then r.xfer.(container := "") else r.xfer
  {
  }

  /** Thirty seconds for a validation, five minutes for a charge or a fulfilment, from now. */
  predicate Timed(r: Request, now: nat) {
    r.nextTick == now + (if r.phase == Validate then 30 else 300) && r.place == Active(r.phase)
  }

  lemma FulfillKeepsPhase(r: Request, env: Env)
    ensures StateFulfill(r, env).r.phase == r.phase
  {
  }

  lemma RunTimed(r: Request, timeout: bool, env: Env)
    ensures var z := RunState(r, timeout, env).r; z.phase == r.phase || Timed(z, env.now)
  {
    FulfillKeepsPhase(r, env);
    FulfillKeepsPhase(r.(phase := Fulfill), env);
    hide StateFulfill;
  }

  lemma TimerIs(r: Request, phase: Phase, env: Env)
    ensures Timed(ChangeState(r, phase, env).r, env.now) && Timed(RunDue(r, env).r, env.now)
  {
    RunTimed(r.(phase := phase), false, env);
    RunTimed(r, true, env);
    hide RunState;
  }

  /** The fulfilment reply a transfer waits for takes it one step on and has that step's packet sent;
      any other, as one that comes late or twice, changes and sends nothing. */
  lemma ReplyIs(r: Request, m: Reply, env: Env)
    requires Live(r) && r.kind == ShardTransfer && r.phase == Fulfill && LinksUp(r, env)
    ensures var out := Step1(r, XferReply(m), env); var x := out.r.xfer;
            out.r.kind == ShardTransfer && out.r.phase == Fulfill &&
            match m
            case Copied(true, text) =>
              if r.xfer.step != CopySrc then out == Out(r, [])
              else if |text| == 0 then x.step == CommitRecovery && out.fx == [ToDstRecover] && Live(out.r)
              else x.step == CopyDst && x.container == text && out.fx == [ToDstCopy(text)] && Live(out.r)
            case Created(dbid) =>
              if r.xfer.step != CopyDst then out == Out(r, [])
              else x.step == CommitSrc && x.newDbid == dbid && out.fx == (if dbid == 0 then [] else [ToSrcCommit(dbid)]) && Live(out.r)
            case SrcCommitted =>
              if r.xfer.step != CommitSrc then out == Out(r, [])
              else x.step == CommitDst && x.newDbid == r.xfer.newDbid && out.fx == [ToDstCommit(x.newDbid)] && Live(out.r)
            case DstCommitted => r.xfer.step != CommitDst ==> out == Out(r, [])
            case Recovered(_) => r.xfer.step != CommitRecovery ==> out == Out(r, [])
            case Copied(false, _) => r.xfer.step != CopySrc ==> out == Out(r, [])
            case _ => out == Out(r, [])
  {
  }

  /** What a request sends as it leaves its charge, and a transfer as it leaves its validation. */
  lemma StartIs(r: Request, env: Env)
    requires Live(r) && r.phase == Charge && LinksUp(r, env)
    ensures var out := Step1(r, Event.Charged(true), env);
            && Live(out.r) && out.r.xfer == r.xfer && out.r.byVip == r.byVip && out.r.kind == r.kind
            && (if r.kind == Rename || r.kind == Respec then out.r.phase == Validate && out.fx == [AskValid]
                else if r.kind == ShardTransfer then out.r.phase == Validate && out.fx == [ToSrcValidate, ToDstValidate]
                else out.r.phase == Fulfill && out.fx == [AskFulfill])
  {
  }

  /** A transfer goes on to copy exactly when the second of the two shards has confirmed. */
  lemma ConfirmIs(r: Request, m: Reply, env: Env)
    requires Live(r) && r.kind == ShardTransfer && r.phase == Validate && LinksUp(r, env) && r.xfer.step == CopySrc
    requires m == ValidSrc(true) || HasRoom(r.byVip, m)
    ensures var out := Step1(r, XferReply(m), env); var x := out.r.xfer;
            && Live(out.r) && x.step == CopySrc && out.r.byVip == r.byVip && out.r.kind == r.kind
            && x.srcConfirmed == (r.xfer.srcConfirmed || m.ValidSrc?) && x.dstConfirmed == (r.xfer.dstConfirmed || m.ValidDst?)
            && (if x.srcConfirmed && x.dstConfirmed then out.r.phase == Fulfill && out.fx == [ToSrcCopy]
                else out.r.phase == Validate && out.fx == [])
  {
  }

  lemma TwoPhaseIs(r: Request, env: Env)
    requires Live(r) && (r.kind == Rename || r.kind == Respec) && r.phase == Validate && LinksUp(r, env)
    ensures var out := Step1(r, if r.kind == Rename then RenameReply(true, true) else RespecReply(true, true), env);
            Live(out.r) && out.r.phase == Fulfill && out.fx == [AskFulfill]
  {
  }

  // ---------- no transfer without room ----------

  ghost predicate SrcSaidYes(log: seq<Item>) {
    In(XferReply(ValidSrc(true))) in log
  }

  ghost predicate DstHadRoom(log: seq<Item>, byVip: bool) {
    exists i :: 0 <= i < |log| && log[i].In? && log[i].event.XferReply? && HasRoom(byVip, log[i].event.reply)
  }

  /** A transfer's confirmations are those its shards have given, and nothing is asked of them before both. */
  ghost predicate Cleared(h: History) {
    && h.r.kind == ShardTransfer
    && (h.r.xfer.srcConfirmed ==> SrcSaidYes(h.log))
    && (h.r.xfer.dstConfirmed ==> DstHadRoom(h.log, h.r.byVip))
    && (h.r.phase == Fulfill || (exists f :: Fx(f) in h.log && AsksDelivery(f)) ==>
          SrcSaidYes(h.log) && DstHadRoom(h.log, h.r.byVip))
  }

  /** A phase method of a transfer keeps its phase and confirmations, and asks for delivery in Fulfill only. */
  predicate Keeps(r: Request, out: Out) {
    && out.r.kind == r.kind && out.r.phase == r.phase
    && out.r.xfer.srcConfirmed == r.xfer.srcConfirmed && out.r.xfer.dstConfirmed == r.xfer.dstConfirmed
    && (r.phase != Fulfill ==> forall f | f in out.fx :: !AsksDelivery(f))
  }

  lemma RunKeeps(r: Request, timeout: bool, env: Env)
    requires r.kind == ShardTransfer
    ensures Keeps(r, RunState(r, timeout, env))
  {
  }

  lemma ChangeKeeps(r: Request, phase: Phase, env: Env)
    requires r.kind == ShardTransfer
    ensures Keeps(r.(phase := phase), ChangeState(r, phase, env))
  {
    RunKeeps(r.(phase := phase), false, env);
    hide RunState, AsksDelivery;
  }

  lemma DueKeeps(r: Request, env: Env)
    requires r.kind == ShardTransfer
    ensures Keeps(r, RunDue(r, env))
  {
    RunKeeps(r, true, env);
    hide RunState, AsksDelivery;
  }

  lemma CompleteKeeps(r: Request, success: bool)
    ensures Keeps(r, Complete(r, success)) && forall f | f in Complete(r, success).fx :: !AsksDelivery(f)
  {
  }

  /** How one event of a transfer changes its confirmations and phase. */
  ghost predicate StepClears(r: Request, e: Event, out: Out) {
    && out.r.kind == ShardTransfer
    && (out.r.xfer.srcConfirmed ==> r.xfer.srcConfirmed || e == XferReply(ValidSrc(true)))
    && (out.r.xfer.dstConfirmed ==> r.xfer.dstConfirmed || (e.XferReply? && HasRoom(r.byVip, e.reply)))
    && (out.r.phase == Fulfill || (exists f :: f in out.fx && AsksDelivery(f)) ==>
          r.phase == Fulfill || (out.r.xfer.srcConfirmed && out.r.xfer.dstConfirmed))
  }

  lemma ReplyClears(r: Request, m: Reply, env: Env)
    requires r.kind == ShardTransfer
    ensures StepClears(r, XferReply(m), Step1(r, XferReply(m), env))
  {
    var x := if m.ValidSrc? then r.xfer.(srcConfirmed := true) else if m.ValidDst? then r.xfer.(dstConfirmed := true) else NextXfer(r.xfer, m);
    ChangeKeeps(r.(xfer := x), Fulfill, env);
    CompleteKeeps(r, true);
    CompleteKeeps(r, false);
    CompleteKeeps(r.(xfer := r.xfer.(container := "")), false);
    hide ChangeState, Complete, AsksDelivery;
  }

  lemma ClearsStep(r: Request, e: Event, env: Env)
    requires r.kind == ShardTransfer
    ensures StepClears(r, e, Step1(r, e, env))
  {
    if e.XferReply? {
      ReplyClears(r, e.reply, env);
    } else {
      ChangeKeeps(r, Validate, env);
      DueKeeps(r, env);
      CompleteKeeps(r, true);
      CompleteKeeps(r, false);
      hide ChangeState, RunDue, Complete, AsksDelivery;
    }
  }

  lemma AdvanceCleared(h: History, p: Happening)
    requires Cleared(h)
    ensures Cleared(Advance(h, p))
  {
    ClearsStep(h.r, p.event, p.env);
    KeepsVip(h.r, p.event, p.env);
    hide Step1, AsksDelivery, HasRoom;
    var out, h' := Step1(h.r, p.event, p.env), Advance(h, p);
    assert h'.log[|h.log|] == In(p.event);
    if DstHadRoom(h.log, h.r.byVip) {
      var i :| 0 <= i < |h.log| && h.log[i].In? && h.log[i].event.XferReply? && HasRoom(h.r.byVip, h.log[i].event.reply);
      assert h'.log[i] == h.log[i];
    }
    if f :| Fx(f) in h'.log && AsksDelivery(f) {
      LogHas(h.log, p.event, out.fx, f);
    }
  }

  /** Over every run, of a started or a recovered transfer: no shard is asked to move the character
      before the source has said that it may go and the destination has answered with numbers that leave it a slot. */
  lemma {:induction false} TransferNeedsRoom(h: History, recovered: bool, ps: seq<Happening>)
    requires Started(h, recovered) && h.r.kind == ShardTransfer
    ensures Cleared(Run(h, ps))
  {
    if ps == [] {
      StartCleared(h, recovered);
    } else {
      TransferNeedsRoom(h, recovered, ps[..|ps| - 1]);
      AdvanceCleared(Run(h, ps[..|ps| - 1]), ps[|ps| - 1]);
    }
  }

  lemma StartCleared(h: History, recovered: bool)
    requires Started(h, recovered) && h.r.kind == ShardTransfer
    ensures Cleared(h)
  {
    var kind, order, byVip, env :|
      var out := if recovered then Resume(kind, order, byVip, env) else Begin(kind, order, byVip, env);
      h == History(out.r, Items(out.fx));
    BeginIs(kind, order, byVip, env);
    ResumeIs(kind, order, byVip, env);
    hide Begin, Resume;
  }

  // ---------- what a transfer is for ----------

  /** A run in which every packet is answered. */
  function Undisturbed(m: Reply, text: string, dbid: nat, env: Env): seq<Happening> {
    [Happening(Event.Charged(true), env), Happening(XferReply(ValidSrc(true)), env), Happening(XferReply(m), env),
     Happening(XferReply(Copied(true, text)), env), Happening(XferReply(Created(dbid)), env),
     Happening(XferReply(SrcCommitted), env), Happening(XferReply(DstCommitted), env)]
  }

  lemma RunOneMore(h: History, ps: seq<Happening>, n: nat)
    requires n < |ps|
    ensures Run(h, ps[..n + 1]) == Advance(Run(h, ps[..n]), ps[n])
  {
    assert ps[..n + 1][..n] == ps[..n];
  }

  lemma BegunFacts(h: History)
    requires Begun(h)
    ensures Live(h.r) && h.r.phase == Charge && !h.r.xfer.srcConfirmed && !h.r.xfer.dstConfirmed && h.r.xfer.step == CopySrc
  {
    var kind, order, byVip, env :| Begin(kind, order, byVip, env) == Out(h.r, [Submit]);
    BeginIs(kind, order, byVip, env);
    hide Begin;
  }

  /** A transfer whose two shards are asked; `src` and `dst` say which have confirmed. */
  predicate Asked(r: Request, src: bool, dst: bool) {
    && Live(r) && r.kind == ShardTransfer && r.phase == Validate && r.xfer.step == CopySrc
    && r.xfer.srcConfirmed == src && r.xfer.dstConfirmed == dst
  }

  /** From the charge to the questions to the two shards. */
  lemma RunsToValidate(h: History, ps: seq<Happening>)
    requires Begun(h) && h.r.kind == ShardTransfer && |ps| > 0
    requires ps[0].event == Event.Charged(true) && ps[0].env.srcUp && ps[0].env.dstUp
    ensures var z := Run(h, ps[..1]);
            && Asked(z.r, false, false) && z.r.byVip == h.r.byVip
            && z.log == [Fx(Submit), In(Event.Charged(true)), Fx(ToSrcValidate), Fx(ToDstValidate)]
  {
    BegunLive(h);
    BegunFacts(h);
    assert ps[..0] == [];
    RunOneMore(h, ps, 0);
    assert Run(h, ps[..0]) == h;
    hide Step1, Begun, Run, Items, LinksUp;
    assert LinksUp(h.r, ps[0].env) by { LinksAre(h.r, ps[0].env); }
    StartIs(h.r, ps[0].env);
    RepliesTwo(h, ps[0], ToSrcValidate, ToDstValidate);
  }

  lemma SourceConfirms(h: History, p: Happening)
    requires Asked(h.r, false, false) && p.event == XferReply(ValidSrc(true)) && p.env.srcUp && p.env.dstUp
    ensures var z := Advance(h, p);
            Asked(z.r, true, false) && z.r.byVip == h.r.byVip && z.log == h.log + [In(p.event)]
  {
    LinksAre(h.r, p.env);
    hide LinksUp;
    ConfirmIs(h.r, ValidSrc(true), p.env);
    RepliesNone(h, p);
    hide Step1;
  }

  lemma DestinationConfirms(h: History, p: Happening, m: Reply)
    requires Asked(h.r, true, false) && p.event == XferReply(m) && HasRoom(h.r.byVip, m) && p.env.srcUp && p.env.dstUp
    ensures var z := Advance(h, p);
            && Live(z.r) && z.r.kind == ShardTransfer && z.r.phase == Fulfill && z.r.xfer.step == CopySrc
            && z.log == h.log + [In(p.event), Fx(ToSrcCopy)]
  {
    LinksAre(h.r, p.env);
    hide LinksUp;
    ConfirmIs(h.r, m, p.env);
    RepliesAs(h, p, ToSrcCopy);
    hide Step1;
  }

  /** On to the copy, once both have confirmed. */
  lemma RunsToCopy(h: History, ps: seq<Happening>, m: Reply)
    requires Begun(h) && h.r.kind == ShardTransfer && HasRoom(h.r.byVip, m) && |ps| > 2
    requires forall k | 0 <= k < 3 :: ps[k].env.srcUp && ps[k].env.dstUp
    requires ps[0].event == Event.Charged(true) && ps[1].event == XferReply(ValidSrc(true)) && ps[2].event == XferReply(m)
    ensures var z := Run(h, ps[..3]);
            && Live(z.r) && z.r.kind == ShardTransfer && z.r.phase == Fulfill && z.r.xfer.step == CopySrc
            && z.log == [Fx(Submit), In(Event.Charged(true)), Fx(ToSrcValidate), Fx(ToDstValidate),
                         In(XferReply(ValidSrc(true))), In(XferReply(m)), Fx(ToSrcCopy)]
  {
    RunsToValidate(h, ps);
    hide Begun, HasRoom, Advance;
    RunOneMore(h, ps, 1);
    RunOneMore(h, ps, 2);
    hide Run;
    SourceConfirms(Run(h, ps[..1]), ps[1]);
    DestinationConfirms(Run(h, ps[..2]), ps[2], m);
  }

  lemma LinksAre(r: Request, env: Env)
    ensures env.srcUp && env.dstUp ==> LinksUp(r, env)
  {
  }

  lemma RepliesTwo(h: History, p: Happening, f: Effect, g: Effect)
    requires Step1(h.r, p.event, p.env).fx == [f, g]
    ensures Advance(h, p).log == h.log + [In(p.event), Fx(f), Fx(g)]
  {
    hide Step1;
  }

  lemma RepliesNone(h: History, p: Happening)
    requires Step1(h.r, p.event, p.env).fx == []
    ensures Advance(h, p).log == h.log + [In(p.event)]
  {
    hide Step1;
  }

  /** A transfer in its fulfil phase, at the given step. */
  predicate At(r: Request, step: Step) {
    Live(r) && r.kind == ShardTransfer && r.phase == Fulfill && r.xfer.step == step
  }

  /** From the copy to the commits. */
  lemma RunsToCommit(h: History, ps: seq<Happening>, text: string, dbid: nat)
    requires |ps| > 4 && At(Run(h, ps[..3]).r, CopySrc) && |text| > 0 && dbid != 0
    requires ps[3].event == XferReply(Copied(true, text)) && ps[4].event == XferReply(Created(dbid))
    requires forall k | 3 <= k < 5 :: ps[k].env.srcUp && ps[k].env.dstUp
    ensures var z := Run(h, ps[..5]);
            && At(z.r, CommitSrc) && z.r.xfer.newDbid == dbid
            && z.log == Run(h, ps[..3]).log + [In(ps[3].event), Fx(ToDstCopy(text))] + [In(ps[4].event), Fx(ToSrcCommit(dbid))]
  {
    RunOneMore(h, ps, 3);
    RunOneMore(h, ps, 4);
    hide Run, Step1;
    var h3 := Run(h, ps[..3]);
    ReplyIs(h3.r, Copied(true, text), ps[3].env);
    RepliesAs(h3, ps[3], ToDstCopy(text));
    var h4 := Advance(h3, ps[3]);
    ReplyIs(h4.r, Created(dbid), ps[4].env);
    RepliesAs(h4, ps[4], ToSrcCommit(dbid));
  }

  /** From the commits to the end. */
  lemma RunsToEnd(h: History, ps: seq<Happening>, dbid: nat)
    requires |ps| > 6 && At(Run(h, ps[..5]).r, CommitSrc) && Run(h, ps[..5]).r.xfer.newDbid == dbid
    requires ps[5].event == XferReply(SrcCommitted) && ps[6].event == XferReply(DstCommitted)
    requires forall k | 5 <= k < 7 :: ps[k].env.srcUp && ps[k].env.dstUp
    ensures Run(h, ps[..7]).log == Run(h, ps[..5]).log + [In(ps[5].event), Fx(ToDstCommit(dbid))] + [In(ps[6].event), Fx(Notify(true))]
  {
    RunOneMore(h, ps, 5);
    RunOneMore(h, ps, 6);
    hide Run, Step1;
    var h5 := Run(h, ps[..5]);
    ReplyIs(h5.r, SrcCommitted, ps[5].env);
    RepliesAs(h5, ps[5], ToDstCommit(dbid));
    var h6 := Advance(h5, ps[5]);
    CommitIs(h6.r, ps[6].env);
    RepliesAs(h6, ps[6], Notify(true));
  }

  /** Undisturbed, a transfer sends its packets in the order of the protocol and ends with success. */
  lemma TransferCompletes(h: History, m: Reply, text: string, dbid: nat, env: Env)
    requires Begun(h) && h.r.kind == ShardTransfer && env.srcUp && env.dstUp
    requires HasRoom(h.r.byVip, m) && |text| > 0 && dbid != 0
    ensures Run(h, Undisturbed(m, text, dbid, env)).log ==
              [Fx(Submit), In(Event.Charged(true)), Fx(ToSrcValidate), Fx(ToDstValidate),
               In(XferReply(ValidSrc(true))), In(XferReply(m)), Fx(ToSrcCopy)]
              + [In(XferReply(Copied(true, text))), Fx(ToDstCopy(text))]
              + [In(XferReply(Created(dbid))), Fx(ToSrcCommit(dbid))]
              + [In(XferReply(SrcCommitted)), Fx(ToDstCommit(dbid))]
              + [In(XferReply(DstCommitted)), Fx(Notify(true))]
  {
    hide Run, Step1, Begun, HasRoom;
    var ps := Undisturbed(m, text, dbid, env);
    assert ps[..7] == ps;
    RunsToCopy(h, ps, m);
    RunsToCommit(h, ps, text, dbid);
    RunsToEnd(h, ps, dbid);
  }

  lemma CommitIs(r: Request, env: Env)
    requires Live(r) && r.kind == ShardTransfer && r.phase == Fulfill && r.xfer.step == CommitDst
    ensures Step1(r, XferReply(DstCommitted), env).fx == [Notify(true)]
  {
  }

  lemma RepliesAs(h: History, p: Happening, f: Effect)
    requires Step1(h.r, p.event, p.env).fx == [f]
    ensures Advance(h, p).log == h.log + [In(p.event), Fx(f)]
  {
    hide Step1;
  }

  // ---------- how a request finishes ----------

  /** Finishing a live request takes it out of the index and onto the deletes, reverts it if it failed,
      and announces it; a multi order that succeeded is announced to its shard besides. */
  lemma CompleteIs(r: Request, success: bool)
    requires Live(r)
    ensures Complete(r, success).r == r.(completed := true, indexed := false, place := Deleting)
    ensures Complete(r, success).fx ==
            if success then (if r.kind == Multi then [MultiAnnounce] else []) + [Notify(true)]
            else (if r.order != 0 then [Revert] else []) + [Notify(false)]
  {
  }

  /** The answer to a finish packet for an order the index has forgotten. */
  lemma ForgottenIs(r: Request, ok: bool, env: Env)
    requires !r.indexed
    ensures Step1(r, Finished(ok), env).r == r
    ensures Step1(r, Finished(ok), env).fx == (if ok || r.order == 0 then [] else [ForgottenRevert]) + [ForgottenNotify(ok)]
  {
  }
}

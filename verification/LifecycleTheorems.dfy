/**
 What AccountRequest promises over whole runs: phases only advance, a request
 finishes once and reverts exactly when it failed with an order, fulfilment is
 asked only for a charged or recovered order; and, where the code falls short,
 exactly which completions are deleted and which stay behind in an active list.
 */
module LifecycleTheorems {
  import opened Lifecycle

  function Rank(p: Phase): nat {
    match p case Charge => 0 case Validate => 1 case Fulfill => 2
  }

  function StepRank(s: Step): nat {
    match s case CopySrc => 0 case CopyDst => 1 case CommitSrc => 2 case CommitDst => 3 case CommitRecovery => 4
  }

  /** A message that asks a shard to deliver what the order paid for. */
  predicate AsksDelivery(f: Effect) {
    f.AskFulfill? || f.ToSrcCopy? || f.ToDstCopy? || f.ToSrcCommit? || f.ToDstCommit? || f.ToDstRecover?
  }

  function Count(log: seq<Item>, f: Effect): nat {
    multiset(log)[Fx(f)]
  }

  /** Nothing that belongs to the order's beginning or end. */
  ghost predicate Quiet(fx: seq<Effect>) {
    forall f | f in fx :: !f.Notify? && !f.Revert? && !f.Submit?
  }

  /** The only effects an operation that finishes the request may have. */
  ghost predicate Finishing(r: Request, fx: seq<Effect>) {
    fx == Completion(r, true) || fx == Completion(r, false) || fx == [Notify(true), Save]
  }

  /** What any operation may do to a request. */
  ghost predicate Fair(r: Request, out: Out) {
    && out.r.kind == r.kind && out.r.order == r.order
    && ((r.indexed <==> !r.completed) ==> (out.r.indexed <==> !out.r.completed))
    && (r.completed ==> out.r.completed)
    && (!out.r.completed && r.place.Active? ==> out.r.place.Active?)
    && Rank(r.phase) <= Rank(out.r.phase)
    && StepRank(r.xfer.step) <= StepRank(out.r.xfer.step)
    && (if out.r.completed && !r.completed then Finishing(r, out.fx) else Quiet(out.fx))
    && ((r.indexed <==> !r.completed) && Save in out.fx ==> out.r.completed && !r.completed)
  }

  lemma CompleteFair(r: Request, success: bool)
    ensures Fair(r, Complete(r, success))
  {
  }

  lemma StateFulfillFair(r: Request, env: Env)
    ensures Fair(r, StateFulfill(r, env))
    ensures StateFulfill(r, env).r.phase == r.phase
  {
  }

  lemma EnterFulfillFair(r: Request, env: Env)
    ensures Fair(r, EnterFulfill(r, env))
  {
    StateFulfillFair(r.(phase := Fulfill), env);
  }

  lemma StateValidateFair(r: Request, timeout: bool, env: Env)
    ensures Fair(r, StateValidate(r, timeout, env))
  {
    EnterFulfillFair(r, env);
  }

  lemma RunStateFair(r: Request, timeout: bool, env: Env)
    ensures Fair(r, RunState(r, timeout, env))
  {
    StateValidateFair(r, timeout, env);
    StateFulfillFair(r, env);
  }

  lemma ChangeStateFair(r: Request, phase: Phase, env: Env)
    requires Rank(r.phase) <= Rank(phase)
    ensures Fair(r, ChangeState(r, phase, env))
  {
    RunStateFair(r.(phase := phase), false, env);
  }

  lemma OnValidatedFair(r: Request, m: Reply, env: Env)
    requires m.ValidSrc? || m.ValidDst?
    ensures Fair(r, OnValidated(r, m, env))
  {
    hide ChangeState, Complete, Fits, Fair;
    CompleteFair(r, false);
    NothingFair(r);
    if r.phase == Validate {
      var x := if m.ValidSrc? then r.xfer.(srcConfirmed := true) else r.xfer.(dstConfirmed := true);
      NothingFair(r.(xfer := x));
      FairBefore(r, x, Out(r.(xfer := x), []));
      ChangeStateFair(r.(xfer := x), Fulfill, env);
      FairBefore(r, x, ChangeState(r.(xfer := x), Fulfill, env));
    }
  }

  /** An operation is fair to a request whose transfer has just moved on, too. */
  lemma FairBefore(r: Request, x: Transfer, out: Out)
    requires Fair(r.(xfer := x), out) && StepRank(r.xfer.step) <= StepRank(x.step)
    ensures Fair(r, out)
  {
    hide Quiet;
  }

  lemma NothingFair(r: Request)
    ensures Fair(r, Out(r, []))
  {
  }

  lemma OnFulfilledFair(r: Request, m: Reply, env: Env)
    ensures Fair(r, OnFulfilled(r, m, env))
  {
    hide ChangeState, Complete, Fair;
    NothingFair(r);
    if r.phase == Fulfill && Answers(r.xfer.step, m) {
      CompleteFair(r, m == DstCommitted || (m.Recovered? && m.found));
      var cleared, next := r.xfer.(container := ""), NextXfer(r.xfer, m);
      CompleteFair(r.(xfer := cleared), false);
      FairBefore(r, cleared, Complete(r.(xfer := cleared), false));
      ChangeStateFair(r.(xfer := next), Fulfill, env);
      FairBefore(r, next, ChangeState(r.(xfer := next), Fulfill, env));
    }
  }

  lemma StepFair(r: Request, e: Event, env: Env)
    ensures Fair(r, Step1(r, e, env))
  {
    hide RunState, ChangeState, OnValidated, OnFulfilled;
    RunStateFair(r, true, env);
    if r.phase == Charge { ChangeStateFair(r, Validate, env); }
    ChangeStateFair(r, Fulfill, env);
    if e.XferReply? { if e.reply.ValidSrc? || e.reply.ValidDst? { OnValidatedFair(r, e.reply, env); } else { OnFulfilledFair(r, e.reply, env); } }
  }

  // ---------------------------------------------------------------------
  //  Runs
  // ---------------------------------------------------------------------

  /** A history as the server starts it: a new order, or one found unsaved in SQL. */
  ghost predicate Started(h: History, recovered: bool) {
    exists kind, order, byVip, env ::
      var out := if recovered then Resume(kind, order, byVip, env) else Begin(kind, order, byVip, env);
      h == History(out.r, Items(out.fx))
  }

  lemma {:induction false} CountItems(fx: seq<Effect>, f: Effect)
    ensures Count(Items(fx), f) == multiset(fx)[f]
  {
    if fx == [] {
    } else {
      var last := |fx| - 1;
      CountItems(fx[..last], f);
      assert Items(fx) == Items(fx[..last]) + [Fx(fx[last])];
      assert fx == fx[..last] + [fx[last]];
    }
  }

  /** The effects of finishing hold one notification, and a revert exactly for a failed order. */
  lemma CountFinishing(r: Request, fx: seq<Effect>)
    requires Finishing(r, fx)
    ensures multiset(fx)[Notify(true)] + multiset(fx)[Notify(false)] == 1
    ensures multiset(fx)[Revert] == (if r.order == 0 then 0 else multiset(fx)[Notify(false)])
    ensures multiset(fx)[Submit] == 0 && multiset(fx)[Save] <= multiset(fx)[Notify(true)]
  {
    assert fx == [MultiAnnounce, Notify(true)] || fx == [Notify(true)] || fx == [Notify(true), Save]
        || (r.order != 0 && fx == [Revert, Notify(false)]) || (r.order == 0 && fx == [Notify(false)]);
  }

  lemma CountQuiet(fx: seq<Effect>)
    requires Quiet(fx) && Save !in fx
    ensures multiset(fx)[Notify(true)] == multiset(fx)[Notify(false)] == 0
    ensures multiset(fx)[Revert] == multiset(fx)[Submit] == multiset(fx)[Save] == 0
  {
    assert forall f :: f in multiset(fx) <==> f in fx;
  }

  /** The books a history keeps: one notification once finished, a revert per failed order. */
  ghost predicate Accounted(h: History, submits: nat) {
    && (h.r.indexed <==> !h.r.completed)
    && Count(h.log, Notify(true)) + Count(h.log, Notify(false)) == (if h.r.completed then 1 else 0)
    && Count(h.log, Revert) == (if h.r.order == 0 then 0 else Count(h.log, Notify(false)))
    && Count(h.log, Submit) == submits && Count(h.log, Save) <= Count(h.log, Notify(true))
  }

  lemma CountStep(log: seq<Item>, e: Event, fx: seq<Effect>, f: Effect)
    ensures Count(log + [In(e)] + Items(fx), f) == Count(log, f) + multiset(fx)[f]
  {
    CountItems(fx, f);
  }

  lemma AdvanceAccounted(h: History, p: Happening, submits: nat)
    requires Accounted(h, submits)
    ensures Accounted(Advance(h, p), submits)
  {
    hide Step1, Count;
    StepFair(h.r, p.event, p.env);
    var out := Step1(h.r, p.event, p.env);
    var quiet := !(out.r.completed && !h.r.completed);
    CountStep(h.log, p.event, out.fx, Notify(true));
    CountStep(h.log, p.event, out.fx, Notify(false));
    CountStep(h.log, p.event, out.fx, Revert);
    CountStep(h.log, p.event, out.fx, Submit);
    CountStep(h.log, p.event, out.fx, Save);
    hide Items, Finishing;
    if quiet {
      CountQuiet(out.fx);
    } else {
      CountFinishing(h.r, out.fx);
    }
  }

  lemma StartAccounted(h: History, recovered: bool)
    requires Started(h, recovered)
    ensures Accounted(h, if recovered then 0 else 1)
  {
    var kind, order, byVip, env :|
      var out := if recovered then Resume(kind, order, byVip, env) else Begin(kind, order, byVip, env);
      h == History(out.r, Items(out.fx));
    var r := Request(kind, order, byVip, if recovered then Validate else Charge, 0,
                     Active(if recovered then Validate else Charge), true, false, Transfer(false, false, CopySrc, "", 0));
    ChangeStateFair(r, r.phase, env);
    var out := ChangeState(r, r.phase, env);
    var fx := if recovered then out.fx else [Submit] + out.fx;
    assert h == History(out.r, Items(fx));
    hide ChangeState;
    CountItems(fx, Notify(true));
    CountItems(fx, Notify(false));
    CountItems(fx, Revert);
    CountItems(fx, Submit);
    CountItems(fx, Save);
    if out.r.completed { CountFinishing(r, out.fx); } else { CountQuiet(out.fx); }
    assert multiset([Submit] + out.fx) == multiset{Submit} + multiset(out.fx);
  }

  lemma BeginStarted(kind: Kind, order: nat, byVip: bool, env: Env)
    ensures Started(History(Begin(kind, order, byVip, env).r, Items(Begin(kind, order, byVip, env).fx)), false)
  {
    var out := if false then Resume(kind, order, byVip, env) else Begin(kind, order, byVip, env);
    assert out == Begin(kind, order, byVip, env);
  }

  lemma BeginOrder(kind: Kind, order: nat, byVip: bool, env: Env)
    ensures Begin(kind, order, byVip, env).r.order == order
  {
  }

  /** However often a request is ticked, answered or finished, it notifies once,
      and reverts exactly when it failed with an order to revert. */
  lemma {:induction false} FinishesOnce(h0: History, recovered: bool, ps: seq<Happening>)
    requires Started(h0, recovered)
    ensures Accounted(Run(h0, ps), if recovered then 0 else 1)
  {
    if ps == [] {
      StartAccounted(h0, recovered);
    } else {
      FinishesOnce(h0, recovered, ps[..|ps| - 1]);
      AdvanceAccounted(Run(h0, ps[..|ps| - 1]), ps[|ps| - 1], if recovered then 0 else 1);
    }
  }

  /** While it waits for its charge, only the charge's success moves a request on. */
  lemma ChargeWaits(r: Request, e: Event, env: Env)
    requires r.phase == Charge && e != Event.Charged(true)
    ensures Step1(r, e, env).r.phase == Charge
    ensures forall f | f in Step1(r, e, env).fx :: !AsksDelivery(f)
  {
    hide ChangeState, EnterFulfill;
  }

  ghost predicate Paid(h: History, recovered: bool) {
    && (h.r.phase == Charge || recovered || In(Event.Charged(true)) in h.log)
    && forall i | 0 <= i < |h.log| && h.log[i].Fx? && AsksDelivery(h.log[i].effect) ::
         recovered || In(Event.Charged(true)) in h.log[..i]
  }

  lemma AdvancePaid(h: History, recovered: bool, p: Happening)
    requires Paid(h, recovered)
    ensures Paid(Advance(h, p), recovered)
  {
    hide Step1, AsksDelivery;
    var out := Step1(h.r, p.event, p.env);
    var h' := Advance(h, p);
    if h.r.phase == Charge && p.event != Event.Charged(true) {
      ChargeWaits(h.r, p.event, p.env);
    } else if h.r.phase == Charge {
      assert h'.log[|h.log|] == In(Event.Charged(true));
    }
    forall i | 0 <= i < |h'.log| && h'.log[i].Fx? && AsksDelivery(h'.log[i].effect)
      ensures recovered || In(Event.Charged(true)) in h'.log[..i]
    {
      if i < |h.log| {
        assert h'.log[..i] == h.log[..i];
      } else {
        assert i > |h.log|;
        assert out.fx[i - |h.log| - 1] == h'.log[i].effect;
        assert h'.log[..i] == h.log + [In(p.event)] + h'.log[|h.log| + 1..i];
      }
    }
  }

  /** A shard is asked to deliver only after SQL confirmed the order's add task,
      or when the order was recovered from SQL as unsaved. */
  lemma {:induction false} DeliveryNeedsCharge(h0: History, recovered: bool, ps: seq<Happening>)
    requires Started(h0, recovered)
    ensures Paid(Run(h0, ps), recovered)
  {
    if ps == [] {
      var kind, order, byVip, env :|
        var out := if recovered then Resume(kind, order, byVip, env) else Begin(kind, order, byVip, env);
        h0 == History(out.r, Items(out.fx));
    } else {
      DeliveryNeedsCharge(h0, recovered, ps[..|ps| - 1]);
      AdvancePaid(Run(h0, ps[..|ps| - 1]), recovered, ps[|ps| - 1]);
    }
  }

  /** Phases and transfer steps only advance along a run. */
  lemma {:induction false} RunOnlyAdvances(h: History, ps: seq<Happening>)
    ensures Rank(h.r.phase) <= Rank(Run(h, ps).r.phase)
    ensures StepRank(h.r.xfer.step) <= StepRank(Run(h, ps).r.xfer.step)
    ensures h.r.completed ==> Run(h, ps).r.completed
  {
    if ps != [] {
      RunOnlyAdvances(h, ps[..|ps| - 1]);
      hide Step1;
      var before := Run(h, ps[..|ps| - 1]);
      StepFair(before.r, ps[|ps| - 1].event, ps[|ps| - 1].env);
    }
  }

  // ---------------------------------------------------------------------
  //  Which finished requests are deleted
  // ---------------------------------------------------------------------

  /** The event itself carries the verdict: its handler finishes the request without running a phase. */
  predicate DirectVerdict(r: Request, e: Event) {
    match e
    case Charged(ok) => !ok
    case Finished(_) => true
    case SlotReply(_) => r.kind == Slot
    case RenameReply(validating, ok) => r.kind == Rename && TwoPhaseVerdict(r, validating, ok)
    case RespecReply(validating, ok) => r.kind == Respec && TwoPhaseVerdict(r, validating, ok)
    case XferReply(m) => r.kind == ShardTransfer && TransferVerdict(r, m)
    case _ => false
  }

  predicate TwoPhaseVerdict(r: Request, validating: bool, ok: bool) {
    if validating then r.phase == Validate && !ok else r.phase == Fulfill
  }

  predicate TransferVerdict(r: Request, m: Reply) {
    match m
    case ValidSrc(ok) => r.phase == Validate && !ok
    case ValidDst(_, _, _, _, _) => r.phase == Validate && !Fits(r.byVip, m)
    case Copied(ok, _) => r.phase == Fulfill && r.xfer.step == CopySrc && !ok
    case DstCommitted => r.phase == Fulfill && r.xfer.step == CommitDst
    case Recovered(_) => r.phase == Fulfill && r.xfer.step == CommitRecovery
    case _ => false
  }

  /** A state method never leaves the request on the delete list: the timer restart
      after it links a request it has just finished back into an active list. */
  lemma RelinkedAfterRun(r: Request, phase: Phase, env: Env)
    ensures ChangeState(r, phase, env).r.place.Active?
    ensures RunDue(r, env).r.place.Active?
  {
    StateFulfillFair(r, env);
    StateFulfillFair(r.(phase := Fulfill), env);
    hide StateFulfill;
  }

  /** When an event finishes a request, the request ends on the delete list exactly
      if the event carried the verdict itself; otherwise it is back in an active list. */
  lemma DeletedIffVerdict(r: Request, e: Event, env: Env)
    requires (r.indexed <==> !r.completed) && !r.completed && r.place.Active?
    requires Step1(r, e, env).r.completed
    ensures Step1(r, e, env).r.place == Deleting <==> DirectVerdict(r, e)
    ensures !DirectVerdict(r, e) ==> Step1(r, e, env).r.place.Active?
  {
    hide ChangeState, RunDue;
    RelinkedAfterRun(r, Validate, env);
    RelinkedAfterRun(r, Fulfill, env);
    RelinkedAfterRun(r.(xfer := r.xfer.(srcConfirmed := true)), Fulfill, env);
    RelinkedAfterRun(r.(xfer := r.xfer.(dstConfirmed := true)), Fulfill, env);
    if e.XferReply? {
      RelinkedAfterRun(r.(xfer := NextXfer(r.xfer, e.reply)), Fulfill, env);
    }
  }

  /** The phase methods as they would be if the timer were restarted for unfinished requests only. */
  function Guarded(r: Request, phase: Phase, out: Out, env: Env): Out {
    if out.r.phase == phase && !out.r.completed then Out(UpdateNextTick(out.r, env.now), out.fx) else out
  }

  function GuardedRun(r: Request, timeout: bool, env: Env): Out {
    if r.phase == Validate && !timeout && (r.kind.Certification? || r.kind.Slot? || r.kind.Multi?) then
      Guarded(r, Fulfill, StateFulfill(r.(phase := Fulfill), env), env)
    else RunState(r, timeout, env)
  }

  /** With that guard every request that a phase method finishes is deleted, and for all others nothing changes. */
  lemma GuardDeletes(r: Request, phase: Phase, env: Env)
    requires r.indexed && !r.completed
    ensures var guarded := Guarded(r, phase, GuardedRun(r.(phase := phase), false, env), env);
            if ChangeState(r, phase, env).r.completed then guarded.r.completed && guarded.r.place == Deleting
            else guarded == ChangeState(r, phase, env)
    ensures var guarded := Guarded(r, r.phase, GuardedRun(r, true, env), env);
            if RunDue(r, env).r.completed then guarded.r.completed && guarded.r.place == Deleting
            else guarded == RunDue(r, env)
  {
  }

  /** A finished request that is back in an active list is never freed. */
  lemma {:induction false} RelinkedForever(h: History, ps: seq<Happening>)
    requires h.r.completed && !h.r.indexed && h.r.place.Active?
    ensures Run(h, ps).r.completed && !Run(h, ps).r.indexed && Run(h, ps).r.place.Active?
  {
    if ps != [] {
      RelinkedForever(h, ps[..|ps| - 1]);
      var before := Run(h, ps[..|ps| - 1]).r;
      var e, env := ps[|ps| - 1].event, ps[|ps| - 1].env;
      RunStateFair(before, true, env);
      RelinkedAfterRun(before, Fulfill, env);
      hide RunState;
    }
  }

  /** A finished request on the delete list stays silent and is freed by the next sweep. */
  lemma DeletedStaysSilent(r: Request, e: Event, env: Env)
    requires r.completed && !r.indexed && !r.place.Active?
    ensures !Step1(r, e, env).r.place.Active?
    ensures e == Sweep ==> Step1(r, e, env).r.place == Freed
    ensures forall f | f in Step1(r, e, env).fx :: f.ForgottenRevert? || f.ForgottenNotify?
  {
    hide RunDue;
  }

  /** The fulfil phase has something to send: a transfer may still miss its payload. */
  predicate HasPayload(r: Request) {
    r.kind == ShardTransfer ==>
      (r.xfer.step == CopyDst ==> r.xfer.container != "") && (r.xfer.step == CommitSrc ==> r.xfer.newDbid != 0)
  }

  /** What a relinked request still sends: a tick that finds it due in the fulfil list with
      its links up asks for the delivery again, although the request has been finished. */
  lemma AsksAgainIff(r: Request, e: Event, env: Env)
    requires r.completed && !r.indexed && r.place.Active? && r.place.list == r.phase
    ensures (exists f | f in Step1(r, e, env).fx :: AsksDelivery(f)) <==>
            (e == Due && r.phase == Fulfill && env.srcUp && (r.kind == ShardTransfer ==> env.dstUp) && HasPayload(r))
  {
    hide EnterFulfill, ChangeState;
    if e == Due && r.phase == Validate {
      assert StateValidate(r, true, env) == Complete(r, false);
    }
    if e == Due && r.phase == Fulfill && env.srcUp && (r.kind == ShardTransfer ==> env.dstUp) && HasPayload(r) {
      assert AsksDelivery(Step1(r, e, env).fx[0]);
    }
  }

  /** The run behind it: the shard's link is down when the charge succeeds, so the order
      fails and is reverted; five minutes later its delivery is asked for all the same. */
  lemma DeliversARevertedOrder() returns (h: History, ps: seq<Happening>, revertAt: nat, askAt: nat)
    ensures Started(h, false)
    ensures revertAt < askAt < |Run(h, ps).log|
    ensures Run(h, ps).log[revertAt] == Fx(Revert) && Run(h, ps).log[askAt] == Fx(AskFulfill)
  {
    var env := Env(1000, true, true);
    var out := Begin(Certification, 7, false, env);
    h := History(out.r, Items(out.fx));
    var charged := Happening(Event.Charged(true), Env(1001, false, true));
    var due := Happening(Due, Env(1400, true, true));
    ps := [charged, due];
    assert ps[..1] == [charged] && [charged][..0] == [];
    var h1 := Advance(h, charged);
    assert Step1(h.r, charged.event, charged.env).fx == [Revert, Notify(false)];
    assert h1.log == [Fx(Submit), In(charged.event), Fx(Revert), Fx(Notify(false))];
    assert Step1(h1.r, Due, due.env).fx == [AskFulfill];
    var h2 := Advance(h1, due);
    assert h2.log == h1.log + [In(Due), Fx(AskFulfill)];
    assert Run(h, [charged]) == Advance(Run(h, []), charged);
    assert Run(h, ps) == Advance(Run(h, [charged]), due) == h2;
    revertAt, askAt := 2, 5;
  }

  // ---------------------------------------------------------------------
  //  Finish packets for finished orders
  // ---------------------------------------------------------------------

  lemma ForgottenStep(r: Request, e: Event, env: Env, i: nat)
    requires i < |Step1(r, e, env).fx|
    ensures Step1(r, e, env).fx[i] == ForgottenRevert <==> i == 0 && e == Finished(false) && !r.indexed && r.order != 0
  {
    hide ChangeState, RunDue, StateFulfill;
    ChangeStateQuiet(r, e, env);
  }

  predicate NoForgotten(fx: seq<Effect>) {
    forall f | f in fx :: !f.ForgottenRevert?
  }

  lemma ChangeStateQuiet(r: Request, e: Event, env: Env)
    ensures !e.Finished? ==> NoForgotten(Step1(r, e, env).fx)
  {
    hide RunDue, ChangeState, Fits;
    RunStateQuiet(r, true, env);
    ChangesQuiet(r, Validate, env);
    ChangesQuiet(r, Fulfill, env);
    ChangesQuiet(r.(xfer := r.xfer.(srcConfirmed := true)), Fulfill, env);
    ChangesQuiet(r.(xfer := r.xfer.(dstConfirmed := true)), Fulfill, env);
    if e.XferReply? {
      ChangesQuiet(r.(xfer := NextXfer(r.xfer, e.reply)), Fulfill, env);
    }
    DueQuiet(r, env);
  }

  lemma RunStateQuiet(r: Request, timeout: bool, env: Env)
    ensures NoForgotten(RunState(r, timeout, env).fx)
  {
    hide StateFulfill;
    StateFulfillQuiet(r, env);
    StateFulfillQuiet(r.(phase := Fulfill), env);
  }

  lemma ChangesQuiet(r: Request, phase: Phase, env: Env)
    ensures NoForgotten(ChangeState(r, phase, env).fx)
  {
    hide RunState;
    RunStateQuiet(r.(phase := phase), false, env);
  }

  lemma DueQuiet(r: Request, env: Env)
    ensures NoForgotten(RunDue(r, env).fx)
  {
    hide RunState;
    RunStateQuiet(r, true, env);
  }

  lemma StateFulfillQuiet(r: Request, env: Env)
    ensures NoForgotten(StateFulfill(r, env).fx)
  {
  }

  /** The request has been announced as finished. */
  predicate Announced(log: seq<Item>) {
    Fx(Notify(true)) in log || Fx(Notify(false)) in log
  }

  /** A failure packet reverts the order at place i of the log, after it was announced as finished. */
  ghost predicate RevertsAt(log: seq<Item>, order: nat, i: nat) {
    0 < i <= |log| && log[i - 1] == In(Finished(false)) && order != 0 && Announced(log[..i - 1])
  }

  ghost predicate RevertsInLog(log: seq<Item>, order: nat) {
    && (forall i | 0 <= i < |log| :: log[i] == Fx(ForgottenRevert) <==> RevertsAt(log, order, i))
    && !(|log| > 0 && log[|log| - 1] == In(Finished(false)))
  }

  /** Every failure packet for an order that was announced, also for a success, reverts it, and nothing else does. */
  ghost predicate RevertsForgotten(h: History) {
    RevertsInLog(h.log, h.r.order)
  }

  lemma AnnouncedIff(h: History, submits: nat)
    requires Accounted(h, submits)
    ensures Announced(h.log) <==> !h.r.indexed
  {
    assert Count(h.log, Notify(true)) > 0 <==> Fx(Notify(true)) in h.log;
    assert Count(h.log, Notify(false)) > 0 <==> Fx(Notify(false)) in h.log;
  }

  lemma FinishedAnswers(r: Request, ok: bool, env: Env)
    requires r.indexed <==> !r.completed
    ensures Step1(r, Finished(ok), env).fx != []
  {
  }

  lemma LogForgotten(log: seq<Item>, e: Event, fx: seq<Effect>, order: nat)
    requires RevertsInLog(log, order) && (e == Finished(false) ==> fx != [])
    requires forall k | 0 <= k < |fx| :: fx[k] == ForgottenRevert <==> k == 0 && e == Finished(false) && order != 0 && Announced(log)
    ensures RevertsInLog(log + ([In(e)] + Items(fx)), order)
  {
    hide Announced, RevertsAt;
    var all := log + ([In(e)] + Items(fx));
    forall i | 0 <= i < |all| ensures all[i] == Fx(ForgottenRevert) <==> RevertsAt(all, order, i) {
      if i <= |log| {
        RevertsAtBefore(log, [In(e)] + Items(fx), order, i);
        if i == |log| { LastNotReverting(log, order); }
      } else {
        RevertsAtNext(log, e, fx, order, i);
      }
    }
  }

  lemma LastNotReverting(log: seq<Item>, order: nat)
    requires RevertsInLog(log, order)
    ensures !RevertsAt(log, order, |log|)
  {
    hide Announced;
  }

  lemma AdvanceForgotten(h: History, p: Happening, submits: nat)
    requires Accounted(h, submits) && RevertsForgotten(h)
    ensures RevertsForgotten(Advance(h, p))
  {
    AnnouncedIff(h, submits);
    StepFair(h.r, p.event, p.env);
    if p.event.Finished? {
      FinishedAnswers(h.r, p.event.ok, p.env);
    }
    hide Step1, Announced, RevertsInLog, Accounted;
    var fx := Step1(h.r, p.event, p.env).fx;
    forall k | 0 <= k < |fx|
      ensures fx[k] == ForgottenRevert <==> k == 0 && p.event == Finished(false) && h.r.order != 0 && Announced(h.log)
    {
      ForgottenStep(h.r, p.event, p.env, k);
    }
    LogForgotten(h.log, p.event, fx, h.r.order);
    assert Advance(h, p).log == h.log + ([In(p.event)] + Items(fx));
  }

  lemma RevertsAtBefore(log: seq<Item>, more: seq<Item>, order: nat, i: nat)
    requires i <= |log|
    ensures RevertsAt(log + more, order, i) <==> RevertsAt(log, order, i)
  {
    hide Announced;
    if i > 0 {
      assert (log + more)[..i - 1] == log[..i - 1];
    }
  }

  lemma RevertsAtNext(log: seq<Item>, e: Event, fx: seq<Effect>, order: nat, i: nat)
    requires |log| < i <= |log| + |fx|
    ensures var all := log + ([In(e)] + Items(fx));
            && all[i] == Fx(fx[i - |log| - 1])
            && (RevertsAt(all, order, i) <==> i == |log| + 1 && e == Finished(false) && order != 0 && Announced(log))
  {
    var all := log + ([In(e)] + Items(fx));
    hide Announced;
    if i == |log| + 1 {
      assert all[..i - 1] == log;
    }
  }

  lemma {:induction false} ForgottenReverts(h0: History, recovered: bool, ps: seq<Happening>)
    requires Started(h0, recovered)
    ensures RevertsForgotten(Run(h0, ps))
  {
    if ps == [] {
      StartForgotten(h0, recovered);
    } else {
      var most := ps[..|ps| - 1];
      ForgottenReverts(h0, recovered, most);
      FinishesOnce(h0, recovered, most);
      hide Accounted, RevertsForgotten;
      AdvanceForgotten(Run(h0, most), ps[|ps| - 1], if recovered then 0 else 1);
    }
  }

  lemma BeginQuiet(kind: Kind, order: nat, byVip: bool, env: Env)
    ensures NoForgotten(Begin(kind, order, byVip, env).fx)
  {
  }

  lemma ResumeQuiet(kind: Kind, order: nat, byVip: bool, env: Env)
    ensures NoForgotten(Resume(kind, order, byVip, env).fx)
  {
    StateFulfillQuiet(Request(kind, order, byVip, Fulfill, 0, Active(Validate), true, false, Transfer(false, false, CopySrc, "", 0)), env);
    hide StateFulfill;
  }

  lemma StartForgotten(h: History, recovered: bool)
    requires Started(h, recovered)
    ensures RevertsForgotten(h)
  {
    hide Begin, Resume;
    var kind, order, byVip, env :|
      var out := if recovered then Resume(kind, order, byVip, env) else Begin(kind, order, byVip, env);
      h == History(out.r, Items(out.fx));
    BeginQuiet(kind, order, byVip, env);
    ResumeQuiet(kind, order, byVip, env);
    var fx := (if recovered then Resume(kind, order, byVip, env) else Begin(kind, order, byVip, env)).fx;
    assert forall i | 0 <= i < |h.log| :: h.log[i] == Fx(fx[i]) && fx[i] in fx;
  }

  /** A run in which an order is delivered, announced as a success, and reverted by a second packet. */
  lemma RevertsADeliveredOrder() returns (h: History, ps: seq<Happening>)
    ensures Started(h, false) && h.r.order != 0
    ensures var log := Run(h, ps).log; |log| == 8 && log[4] == Fx(Notify(true)) && log[6] == Fx(ForgottenRevert)
  {
    var env := Env(1000, true, true);
    var out := Begin(Certification, 7, false, env);
    h := History(out.r, Items(out.fx));
    var charged := Happening(Event.Charged(true), env);
    var done, late := Happening(Finished(true), env), Happening(Finished(false), env);
    ps := [charged, done, late];
    assert ps[..2] == [charged, done] && ps[..2][..1] == [charged] && [charged][..0] == [];
    var h1 := Advance(h, charged);
    assert Step1(h.r, charged.event, env).fx == [AskFulfill];
    assert h1.log == [Fx(Submit), In(charged.event), Fx(AskFulfill)];
    var h2 := Advance(h1, done);
    assert Step1(h1.r, done.event, env).fx == [Notify(true)];
    assert h2.log == h1.log + [In(done.event), Fx(Notify(true))];
    var h3 := Advance(h2, late);
    assert Step1(h2.r, late.event, env).fx == [ForgottenRevert, ForgottenNotify(false)];
    assert h3.log == h2.log + [In(late.event), Fx(ForgottenRevert), Fx(ForgottenNotify(false))];
    assert Run(h, [charged]) == Advance(Run(h, []), charged);
    assert Run(h, ps[..2]) == Advance(Run(h, [charged]), done);
    assert Run(h, ps) == Advance(Run(h, ps[..2]), late);
  }
}

/**
 The life of one AccountRequest: the charge / validate / fulfill machine, its
 timeouts, its compensating revert and the place it occupies in the server's
 lists.  Everything one event does to one request is a function here; the class
 in RequestServer.dfy mutates real lists and is proved against these functions,
 and ShardTransfer.dfy runs the same machine against two shards.
 */
module Lifecycle {

  const CHARGE_TIMEOUT := 300
  const VALIDATE_TIMEOUT := 30
  const FULFILL_TIMEOUT := 300

  datatype Kind = Certification | Rename | Respec | Slot | ShardTransfer | Multi

  datatype Phase = Charge | Validate | Fulfill

  /** The list the request's tick link is on. */
  datatype Place = Active(list: Phase) | Deleting | Freed

  /** The fulfilment steps of a shard transfer. */
  datatype Step = CopySrc | CopyDst | CommitSrc | CommitDst | CommitRecovery

  /** The transfer-only fields of a request. */
  datatype Transfer = Transfer(
    srcConfirmed: bool,
    dstConfirmed: bool,
    step: Step,
    container: string,   // empty when there is none
    newDbid: nat)

  datatype Request = Request(
    kind: Kind,
    order: nat,          // 0 is the null order id
    byVip: bool,
    phase: Phase,
    nextTick: nat,
    place: Place,
    indexed: bool,       // present in the order-id index
    completed: bool,
    xfer: Transfer)

  /** What the request sees of the outside: the clock and the two shard links. */
  datatype Env = Env(now: nat, srcUp: bool, dstUp: bool)

  datatype Effect =
    | Submit                       // the order's add task
    | Revert                       // the compensating revert task
    | Notify(success: bool)        // the finish notification
    | MultiAnnounce                // the extra packet of a finished multi order
    | Save                         // the save task a slot reply queues
    | ForgottenRevert              // revert for an order the index has forgotten
    | ForgottenNotify(success: bool)
    | AskValid
    | AskFulfill
    | ToSrcValidate
    | ToDstValidate
    | ToSrcCopy
    | ToDstCopy(text: string)
    | ToSrcCommit(dst: nat)
    | ToDstCommit(dbid: nat)
    | ToDstRecover

  datatype Out = Out(r: Request, fx: seq<Effect>)

  /** A transfer reply from one of the shards. */
  datatype Reply =
    | ValidSrc(ok: bool)
    | ValidDst(unlockedUsed: nat, totalUsed: nat, accountMax: nat, serverMax: nat, vipOnly: bool)
    | Copied(ok: bool, text: string)
    | Created(dbid: nat)
    | SrcCommitted
    | DstCommitted
    | Recovered(found: bool)

  datatype Event =
    | Charged(ok: bool)                          // the add task finished
    | Due                                        // Tick found the request due
    | Sweep                                      // the pending deletes are processed
    | Finished(ok: bool)                         // a transaction-finish packet
    | SlotReply(ok: bool)
    | RenameReply(validating: bool, ok: bool)
    | RespecReply(validating: bool, ok: bool)
    | XferReply(reply: Reply)

  function Timeout(p: Phase): nat {
    match p
    case Charge => CHARGE_TIMEOUT
    case Validate => VALIDATE_TIMEOUT
    case Fulfill => FULFILL_TIMEOUT
  }

  // ---------------------------------------------------------------------
  //  The operations of AccountRequest and RequestShardTransfer
  // ---------------------------------------------------------------------

  /** What finishing sends out: the revert of a failed order, then the notification. */
  function Completion(r: Request, success: bool): seq<Effect> {
    if success then (if r.kind == Multi then [MultiAnnounce, Notify(true)] else [Notify(true)])
    else if r.order != 0 then [Revert, Notify(false)]
    else [Notify(false)]
  }

  /** Finish a request once: revert a failed order, notify, leave the index. */
  function Complete(r: Request, success: bool): Out {
    if r.completed then Out(r, [])
    else
      Out(r.(completed := true,
             indexed := false,
             place := if r.indexed then Deleting else r.place),
          Completion(r, success))
  }

  /** Restart the timer of the current phase and relink at its list. */
  function UpdateNextTick(r: Request, now: nat): Request {
    r.(nextTick := now + Timeout(r.phase), place := Active(r.phase))
  }

  function StateCharge(r: Request, timeout: bool): Out {
    if timeout then Complete(r, false) else Out(r, [])
  }

  function StateFulfill(r: Request, env: Env): Out {
    if !env.srcUp then Complete(r, false)
    else if r.kind != ShardTransfer then Out(r, [AskFulfill])
    else if !env.dstUp then Complete(r, false)
    else
      match r.xfer.step
      case CopySrc => Out(r.(xfer := r.xfer.(container := "")), [ToSrcCopy])
      case CopyDst => Out(r, if r.xfer.container == "" then [] else [ToDstCopy(r.xfer.container)])
      case CommitSrc => Out(r, if r.xfer.newDbid == 0 then [] else [ToSrcCommit(r.xfer.newDbid)])
      case CommitDst => Out(r, [ToDstCommit(r.xfer.newDbid)])
      case CommitRecovery => Out(r, [ToDstRecover])
  }

  function EnterFulfill(r: Request, env: Env): Out {
    var out := StateFulfill(r.(phase := Fulfill), env);
    Out(UpdateNextTick(out.r, env.now), out.fx)
  }

  function StateValidate(r: Request, timeout: bool, env: Env): Out {
    if timeout then Complete(r, false)
    else
      match r.kind
      case Rename | Respec =>
        if !env.srcUp then Complete(r, false) else Out(r, [AskValid])
      case ShardTransfer =>
        if !env.srcUp || !env.dstUp then Complete(r, false) else Out(r, [ToSrcValidate, ToDstValidate])
      case _ => EnterFulfill(r, env)
  }

  function RunState(r: Request, timeout: bool, env: Env): Out {
    match r.phase
    case Charge => StateCharge(r, timeout)
    case Validate => StateValidate(r, timeout, env)
    case Fulfill => StateFulfill(r, env)
  }

  /** Enter a phase, run it at once, and restart the timer if it is still current. */
  function ChangeState(r: Request, phase: Phase, env: Env): Out {
    var out := RunState(r.(phase := phase), false, env);
    if out.r.phase == phase then Out(UpdateNextTick(out.r, env.now), out.fx) else out
  }

  /** One visit of Tick to a due request. */
  function RunDue(r: Request, env: Env): Out {
    var out := RunState(r, true, env);
    if out.r.phase == r.phase then Out(UpdateNextTick(out.r, env.now), out.fx) else out
  }

  function OnCharged(r: Request, ok: bool, env: Env): Out {
    if !ok then Complete(r, false)
    else if r.phase != Charge then Out(r, [])
    else ChangeState(r, Validate, env)
  }

  /** Rename and respec share this two-phase handler. */
  function OnTwoPhase(r: Request, validating: bool, ok: bool, env: Env): Out {
    if r.phase != (if validating then Validate else Fulfill) then Out(r, [])
    else if validating && ok then ChangeState(r, Fulfill, env)
    else Complete(r, ok)
  }

  predicate Fits(byVip: bool, m: Reply)
    requires m.ValidDst?
  {
    m.unlockedUsed < m.accountMax && m.totalUsed < m.serverMax && (!m.vipOnly || byVip)
  }

  predicate Answers(step: Step, m: Reply) {
    match m
    case ValidSrc(_) => false
    case ValidDst(_, _, _, _, _) => false
    case Copied(_, _) => step == CopySrc
    case Created(_) => step == CopyDst
    case SrcCommitted => step == CommitSrc
    case DstCommitted => step == CommitDst
    case Recovered(_) => step == CommitRecovery
  }

  /** A validation reply: fulfilment starts once both shards have confirmed. */
  function OnValidated(r: Request, m: Reply, env: Env): Out
    requires m.ValidSrc? || m.ValidDst?
  {
    if r.phase != Validate then Out(r, [])
    else if if m.ValidSrc? then m.ok else Fits(r.byVip, m) then
      var r' := r.(xfer := if m.ValidSrc? then r.xfer.(srcConfirmed := true) else r.xfer.(dstConfirmed := true));
      if r'.xfer.srcConfirmed && r'.xfer.dstConfirmed then ChangeState(r', Fulfill, env) else Out(r', [])
    else Complete(r, false)
  }

  /** Where an awaited fulfilment reply takes the transfer next. */
  function NextXfer(x: Transfer, m: Reply): Transfer {
    match m
    case Copied(_, text) => x.(container := text, step := if text == "" then CommitRecovery else CopyDst)
    case Created(dbid) => x.(newDbid := dbid, step := CommitSrc)
    case SrcCommitted => x.(step := CommitDst)
    case _ => x
  }

  function OnFulfilled(r: Request, m: Reply, env: Env): Out {
    if r.phase != Fulfill || !Answers(r.xfer.step, m) then Out(r, [])
    else
      match m
      case DstCommitted => Complete(r, true)
      case Recovered(found) => Complete(r, found)
      case Copied(false, _) => Complete(r.(xfer := r.xfer.(container := "")), false)
      case _ => ChangeState(r.(xfer := NextXfer(r.xfer, m)), Fulfill, env)
  }

  function OnTransferReply(r: Request, m: Reply, env: Env): Out {
    if m.ValidSrc? || m.ValidDst? then OnValidated(r, m, env) else OnFulfilled(r, m, env)
  }

  /** The answer to a finish packet for an order the index does not hold. */
  function Forgotten(order: nat, ok: bool): seq<Effect> {
    (if !ok && order != 0 then [ForgottenRevert] else []) + [ForgottenNotify(ok)]
  }

  /** Everything that can happen to a request, including packets for an order
      that the index no longer knows. */
  function Step1(r: Request, e: Event, env: Env): Out {
    match e
    case Due => if r.place.Active? then RunDue(r, env) else Out(r, [])
    case Sweep => Out(if r.place == Deleting then r.(place := Freed) else r, [])
    case Charged(ok) => if r.indexed then OnCharged(r, ok, env) else Out(r, [])
    case Finished(ok) =>
      if r.indexed then Complete(r, ok)
      else Out(r, Forgotten(r.order, ok))
    case SlotReply(ok) =>
      if !r.indexed || r.kind != Slot then Out(r, [])
      else if ok then var out := Complete(r, true); Out(out.r, out.fx + [Save])
      else Complete(r, false)
    case RenameReply(validating, ok) =>
      if r.indexed && r.kind == Rename then OnTwoPhase(r, validating, ok, env) else Out(r, [])
    case RespecReply(validating, ok) =>
      if r.indexed && r.kind == Respec then OnTwoPhase(r, validating, ok, env) else Out(r, [])
    case XferReply(m) =>
      if r.indexed && r.kind == ShardTransfer then OnTransferReply(r, m, env) else Out(r, [])
  }

  /** The request as New leaves it: added to the index and the charge list, its
      add task submitted. */
  function Begin(kind: Kind, order: nat, byVip: bool, env: Env): Out {
    var r := Request(kind, order, byVip, Charge, 0, Active(Charge), true, false,
                     Transfer(false, false, CopySrc, "", 0));
    var out := ChangeState(r, Charge, env);
    Out(out.r, [Submit] + out.fx)
  }

  /** The request as Recover leaves it: an order found unsaved in SQL. */
  function Resume(kind: Kind, order: nat, byVip: bool, env: Env): Out {
    var r := Request(kind, order, byVip, Validate, 0, Active(Validate), true, false,
                     Transfer(false, false, CopySrc, "", 0));
    ChangeState(r, Validate, env)
  }

  // ---------------------------------------------------------------------
  //  Runs
  // ---------------------------------------------------------------------

  datatype Item = In(event: Event) | Fx(effect: Effect)

  function Items(fx: seq<Effect>): seq<Item> {
    seq(|fx|, i requires 0 <= i < |fx| => Fx(fx[i]))
  }

  datatype Happening = Happening(event: Event, env: Env)

  datatype History = History(r: Request, log: seq<Item>)

  function Advance(h: History, p: Happening): History {
    var out := Step1(h.r, p.event, p.env);
    History(out.r, h.log + [In(p.event)] + Items(out.fx))
  }

  function Run(h: History, ps: seq<Happening>): History {
    if ps == [] then h else Advance(Run(h, ps[..|ps| - 1]), ps[|ps| - 1])
  }
}

/** What any run leaves unchanged on a request: the guarantee of one step, and of every continuation. */
module Guarantees {
  import opened Domain
  import opened Pipeline
  import opened CellInvariant
  import opened LocalSteps
  import opened OtherSteps
  import opened RunInvariant
  import opened StepInvariant

  lemma AdvanceGuards(s: State, p: Pid, op: Op, r: ReqId)
    requires Inv(s) && r < |s.cells|
    ensures r < |AdvanceStep(s, p, op).cells| && Guar(p, s.cells[r], AdvanceStep(s, p, op).cells[r])
  {
    hide CellInv, WorkerLink, NoteLink, SnapLink, SettleHead, ExpireLink, OwesExit, Guar, Grows, Inv, WorkStep, NoteStep, SettleStep, ExpireStep;
    InvParts(s);
    GuarRefl(p, s.cells[r]);
    if p in s.procs {
      assert ProcLink(s.world, s.now, p, s.procs[p], s.cells);
      match s.procs[p]
      case Idle =>
      case Worker(i, pc) => WorkStepSafe(s.world, s.now, p, i, pc, s.cells[i], op);
      case Noting(i, before, last, reply) => NoteStepSafe(s.world, s.now, p, i, before, last, reply, s.cells[i], op);
      case Settling(todo, sp) => if todo != [] { SettleStepSafe(s.world, s.now, p, todo, sp, s.cells[todo[0].r], op); }
      case Expiring(ids, logging) => if ids != [] { ExpireStepSafe(s.world, s.now, p, ids, logging, s.cells[ids[0]], op); }
      case _ => WithdrawGuards(s, p, op, r);
    }
  }

  lemma WithdrawGuards(s: State, p: Pid, op: Op, r: ReqId)
    requires r < |s.cells| && CellsInv(s) && (ProcOf(s, p).Looking? || ProcOf(s, p).Inserting? || ProcOf(s, p).Conflicted?)
    ensures r < |AdvanceStep(s, p, op).cells| && Guar(p, s.cells[r], AdvanceStep(s, p, op).cells[r])
  {
    hide CellInv, ProcLink;
    GuarRefl(p, s.cells[r]);
  }

  lemma StartGuards(s: State, a: Action, r: ReqId)
    requires Inv(s) && r < |s.cells| && (a.Reserve? || a.Settle? || a.Expire? || a.Approve? || a.Reject? || a.Withdraw?)
    ensures r < |StartStep(s, a).cells| && Guar(a.p, s.cells[r], StartStep(s, a).cells[r])
  {
    hide CellInv, Guar, Inv, ApproveTx, RejectTx;
    InvParts(s);
    GuarRefl(a.p, s.cells[r]);
    if a.Reserve? && Oldest(s.cells, s.now).Some? { ReserveSafe(s.world, s.now, a.p, s.cells[Oldest(s.cells, s.now).value]); }
    if a.Approve? && a.r < |s.cells| { ApproveSafe(s.world, s.now, a.p, a.admin, s.cells[a.r], |s.tickets|); }
    if a.Reject? && a.r < |s.cells| { RejectSafe(s.world, s.now, a.p, s.cells[a.r]); }
  }

  function Actor(a: Action): Pid {
    match a
    case Advance(p, _) => p
    case Reserve(p) => p
    case Settle(p, _) => p
    case Expire(p, _) => p
    case Approve(p, _, _, _) => p
    case Reject(p, _, _) => p
    case Withdraw(p, _) => p
    case _ => 0
  }

  lemma StepGuards(s: State, a: Action, r: ReqId)
    requires Inv(s) && r < |s.cells|
    ensures r < |Step(s, a).cells| && Guar(Actor(a), s.cells[r], Step(s, a).cells[r])
  {
    hide CellInv, Guar, Inv, AdvanceStep, StartStep;
    InvParts(s);
    GuarRefl(Actor(a), s.cells[r]);
    match a
    case Advance(p, op) => AdvanceGuards(s, p, op, r);
    case Cleanup(targets) => if CleanupAllowed(s, targets) { DropSafe(s.world, s.now, 0, s.cells[r], targets); }
    case Reserve(_) => StartGuards(s, a, r);
    case Settle(_, _) => StartGuards(s, a, r);
    case Expire(_, _) => StartGuards(s, a, r);
    case Approve(_, _, _, _) => StartGuards(s, a, r);
    case Reject(_, _, _) => StartGuards(s, a, r);
    case Withdraw(_, _) => StartGuards(s, a, r);
    case _ =>
  }

  /** What holds between one request now and the same request after any further steps by anyone. */
  predicate Later(c: Cell, c': Cell) {
    && c'.hist.intent == c.hist.intent
    && c.hist.lateFaults <= c'.hist.lateFaults
    && (c.hist.closer.Some? ==> c'.hist.closer == c.hist.closer)
    && (c.row.None? ==> c'.row.None?)
    && (c.row.Some? && c'.row.Some? ==>
          && SameOrder(c.row.value.request, c'.row.value.request)
          && FinalKept(c.row.value.request, c'.row.value.request, c'.hist.lateFaults == 0)
          && (c.row.value.queue.Some? ==> c'.row.value.queue.Some? && c'.row.value.approvals == c.row.value.approvals))
  }

  lemma {:induction false} RunGuards(s: State, more: seq<Action>, r: ReqId)
    requires Inv(s) && r < |s.cells|
    ensures r < |Run(s, more).cells| && Later(s.cells[r], Run(s, more).cells[r])
  {
    hide Inv, CellInv, Step;
    if |more| > 0 {
      RunLast(s, more);
      var m, a := more[..|more| - 1], more[|more| - 1];
      RunGuards(s, m, r);
      RunKeeps(s, m);
      StepGuards(Run(s, m), a, r);
      RunKeeps(s, more);
      LaterTrans(s.cells[r], Run(s, m).cells[r], Actor(a), Run(s, more).cells[r]);
    }
  }

  lemma LaterTrans(c: Cell, c1: Cell, p: Pid, c2: Cell)
    requires Later(c, c1) && Guar(p, c1, c2)
    ensures Later(c, c2)
  {
  }

  /** The state that further actions lead to, in one run. */
  lemma {:induction false} RunSplit(s: State, acts: seq<Action>, more: seq<Action>)
    ensures Run(s, acts + more) == Run(Run(s, acts), more)
    decreases |acts|
  {
    hide Step;
    var all := acts + more;
    if |acts| == 0 {
      assert all == more;
    } else {
      RunSplit(Step(s, acts[0]), acts[1..], more);
      assert all[1..] == acts[1..] + more;
    }
  }
}

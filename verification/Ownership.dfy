/** While a poll works on a request, nobody else does: not even after its rows are gone. */
module Ownership {
  import opened Domain
  import opened Pipeline
  import opened CellInvariant
  import opened RunInvariant
  import opened StepInvariant
  import opened ExecutionTheorems
  import opened QueueTheorems

  /** Whether an action is taken by process p. */
  predicate ByProcess(a: Action, p: Pid) {
    match a
    case Advance(q, _) => q == p
    case Reserve(q) => q == p
    case Settle(q, _) => q == p
    case Expire(q, _) => q == p
    case Approve(q, _, _, _) => q == p
    case Reject(q, _, _) => q == p
    case Withdraw(q, _) => q == p
    case _ => false
  }

  lemma OthersLeave(s: State, a: Action, p: Pid)
    requires !ByProcess(a, p)
    ensures ProcOf(Step(s, a), p) == ProcOf(s, p)
  {
    hide WorkStep, NoteStep, SettleStep, ExpireStep;
  }

  lemma NewWorker(s: State, a: Action, p: Pid, r: ReqId)
    requires HeldBy(Step(s, a), p, r)
    ensures HeldBy(s, p, r) || (Takes(s, a, r) && a.p == p)
  {
    hide WorkStep;
    if a.Advance? && ProcOf(s, a.p).Worker? && ProcOf(s, a.p).r < |s.cells| {
      WorkStays(s.world, s.now, ProcOf(s, a.p).r, ProcOf(s, a.p).pc, s.cells[ProcOf(s, a.p).r], a.op);
    }
  }

  /** Two processes are never workers on one request. */
  lemma {:induction false} SoleWorker(acts: seq<Action>, p: Pid, q: Pid, r: ReqId)
    requires HeldBy(Run(Initial, acts), p, r) && HeldBy(Run(Initial, acts), q, r)
    ensures p == q
  {
    hide Inv, Step, Takes;
    if |acts| > 0 {
      RunLast(Initial, acts);
      var before, a := acts[..|acts| - 1], acts[|acts| - 1];
      var s := Run(Initial, before);
      Reachable(before);
      NewWorker(s, a, p, r);
      NewWorker(s, a, q, r);
      if HeldBy(s, p, r) && HeldBy(s, q, r) { SoleWorker(before, p, q, r); }
      else if HeldBy(s, p, r) { TakenIsFree(s, a, p, r); }
      else if HeldBy(s, q, r) { TakenIsFree(s, a, q, r); }
    }
  }

  lemma TakenIsFree(s: State, a: Action, p: Pid, r: ReqId)
    requires Inv(s) && HeldBy(s, p, r)
    ensures !Takes(s, a, r)
  {
    InvParts(s);
    if Takes(s, a, r) { OwnerNamed(s, r, p); }
  }

  lemma WorkerInRange(acts: seq<Action>, p: Pid)
    requires ProcOf(Run(Initial, acts), p).Worker?
    ensures ProcOf(Run(Initial, acts), p).r < |Run(Initial, acts).cells|
  {
    var s := Run(Initial, acts);
    Reachable(acts);
    InvParts(s);
    assert ProcLink(s.world, s.now, p, s.procs[p], s.cells);
  }

  /** Nothing that another process does counts as an execution, a success or a fault on p's request. */
  lemma OthersDoNotMark(acts: seq<Action>, a: Action, p: Pid, r: ReqId)
    requires HeldBy(Run(Initial, acts), p, r) && !ByProcess(a, p)
    ensures forall k :: Count(acts + [a], r, k) == Count(acts, r, k)
  {
    hide Step;
    assert (acts + [a])[..|acts|] == acts;
    forall k ensures !Marks(Run(Initial, acts), a, r, k) {
      if WorksOn(Run(Initial, acts), a, r) { SoleWorker(acts, p, a.p, r); }
    }
  }
}

/** Every statement keeps the invariant of the request it works on, keeps what its own process relies on,
  * and stays within what it guarantees to the other processes. */
module LocalSteps {
  import opened Domain
  import opened Pipeline
  import opened CellInvariant
  import PolicyGuardV1

  predicate OwnLink(w: World, p: Pid, r: ReqId, proc: Proc, c: Cell) {
    match proc
    case Idle => true
    case Worker(r', pc) => r' == r && WorkerLink(w, p, pc, c)
    case Noting(r', before, last, reply) => r' == r && NoteLink(p, before, last, reply, c)
    case _ => false
  }

  predicate Safe(w: World, now: Time, p: Pid, r: ReqId, c: Cell, m: Moved) {
    && CellInv(m.world, now, m.cell)
    && OwnLink(m.world, p, r, m.proc, m.cell)
    && Guar(p, c, m.cell)
    && Grows(w, m.world)
  }

  // ---------- a write on a queued request ----------

  /** The facts about counters, executions and results that CellInv holds for a queued request. */
  predicate Balanced(w: World, c: Cell)
    requires !Missing(c)
  {
    var q, j, h := c.row.value.request, c.row.value.queue.value, c.hist;
    && Counters(q, j, h) && Backed(w, q, h) && (h.lateFaults == 0 ==> Quiet(w, q, j, h))
    && |h.calls| <= MAX_ATTEMPTS && CallsFaithful(h)
    && h.successes <= h.lateFaults + 1
    && (h.successes >= 1 && h.intent.wallet.walletType.POLICY_GUARD? ==> PolicyGuardV1.Check(h.intent.to, h.intent.amount))
  }

  predicate CallsFaithful(h: History) {
    forall i :: 0 <= i < |h.calls| ==> h.calls[i] == Call(h.intent.walletId, h.intent.to, h.intent.amount)
  }

  predicate SameOrLogged(row: Row, row': Row, e: Option<AuditEvent>) {
    if e.Some? then !IsExit(e.value) && row'.audit == row.audit + multiset{e.value} else row'.audit == row.audit
  }

  predicate HistoryGrows(h: History, h': History) {
    && h'.intent == h.intent && h'.closer == h.closer && h'.answers == h.answers
    && h.lateFaults <= h'.lateFaults && h.successes <= h'.successes && |h.calls| <= |h'.calls| && h.crashes <= h'.crashes
  }

  predicate StaysQueued(q: Request, q': Request, quiet: bool) {
    && SameOrder(q, q') && (q'.meta.signedTx.None? || q'.meta.signedTx == q.meta.signedTx)
    && (q'.status.QUEUED? || q'.status.PROCESSING? || q'.status.EXECUTED? || q'.status.FAILED?)
    && (quiet && (q.status.EXECUTED? || q.status.FAILED?) ==> q'.status == q.status)
    && (q.meta.external.Some? ==> q'.meta.external.Some? && (quiet ==> q'.meta.external.value.id == q.meta.external.value.id))
  }

  /** A write on a job that is the writer's own or nobody's, or that touches nothing a poll relies on; and what it leaves
    * as it is. */
  predicate AllowedWrite(p: Pid, c: Cell, c': Cell, e: Option<AuditEvent>) {
    && !Missing(c) && !Missing(c')
    && (Holds(p, c) || Reservable(c.row.value.queue.value) || Untouched(c.row.value, c'.row.value, c.hist, c'.hist))
    && c'.row.value.approvals == c.row.value.approvals && SameOrLogged(c.row.value, c'.row.value, e)
    && HistoryGrows(c.hist, c'.hist)
    && StaysQueued(c.row.value.request, c'.row.value.request, c'.hist.lateFaults == 0)
    && c'.row.value.queue.value.ticket == c.row.value.queue.value.ticket
  }

  lemma Balance(w: World, now: Time, c: Cell)
    requires CellInv(w, now, c) && !Missing(c)
    ensures Balanced(w, c)
    ensures c.row.value.request.status.QUEUED? || c.row.value.request.status.PROCESSING? || c.row.value.request.status.EXECUTED? || c.row.value.request.status.FAILED?
  {
  }

  lemma WriteInv(w: World, w': World, now: Time, p: Pid, c: Cell, c': Cell, e: Option<AuditEvent>)
    requires CellInv(w, now, c) && AllowedWrite(p, c, c', e) && Balanced(w', c')
    ensures CellInv(w', now, c')
  {
    hide Counters, Backed, Quiet, Authorised, Holds;
    var row, row' := c.row.value, c'.row.value;
    AuditKept(row, row', e);
    assert AuditTrue(row', c'.hist);
    ApprovalsKept(row, row');
  }

  lemma AuditKept(row: Row, row': Row, e: Option<AuditEvent>)
    requires SameOrLogged(row, row', e)
    ensures Exits(row') == Exits(row)
    ensures row'.audit[LogQueued] == row.audit[LogQueued] && row'.audit[LogRejected] == row.audit[LogRejected]
    ensures row'.audit[LogExpired] == row.audit[LogExpired]
  {
  }

  lemma ApprovalsKept(row: Row, row': Row)
    requires ApprovalsValid(row) && row'.approvals == row.approvals && SameOrder(row.request, row'.request)
    requires row.queue.Some? && row'.queue.Some? && !row'.request.status.PENDING?
    ensures ApprovalsValid(row')
  {
  }

  lemma WriteGuar(w: World, now: Time, p: Pid, c: Cell, c': Cell, e: Option<AuditEvent>)
    requires CellInv(w, now, c) && AllowedWrite(p, c, c', e)
    ensures Guar(p, c, c')
  {
    hide Counters, Backed, Quiet, Authorised, HistoryInv, ApprovalsValid, Faithful;
    AuditKept(c.row.value, c'.row.value, e);
  }

  lemma WriteSafe(w: World, w': World, now: Time, p: Pid, c: Cell, c': Cell, e: Option<AuditEvent>)
    requires CellInv(w, now, c) && AllowedWrite(p, c, c', e) && Balanced(w', c')
    ensures CellInv(w', now, c') && Guar(p, c, c')
  {
    hide *;
    WriteInv(w, w', now, p, c, c', e);
    WriteGuar(w, now, p, c, c', e);
  }

  lemma SameSafe(w: World, now: Time, p: Pid, c: Cell)
    requires CellInv(w, now, c)
    ensures Guar(p, c, c) && Grows(w, w)
  {
  }

  // ---------- up to the executor call ----------

  lemma ClaimedSafe(w: World, now: Time, p: Pid, r: ReqId, pc: WorkerPc, c: Cell)
    requires CellInv(w, now, c) && WorkerLink(w, p, pc, c) && !Missing(c) && !InTry(pc)
    requires !pc.Loaded? && !pc.Checked? && !pc.Started? && !pc.Caught? && !pc.Counted? && !pc.Reread?
    ensures Safe(w, now, p, r, c, PlainStep(w, now, r, pc, c))
  {
    Balance(w, now, c);
    assert Faithful(c.row.value.request, c.hist.intent);
    hide CellInv, Guar, Grows;
    SameSafe(w, now, p, c);
  }

  lemma LoadedSafe(w: World, now: Time, p: Pid, r: ReqId, c: Cell)
    requires CellInv(w, now, c) && WorkerLink(w, p, Loaded, c) && !Missing(c)
    ensures Safe(w, now, p, r, c, PlainStep(w, now, r, Loaded, c))
  {
    hide CellInv, Guar, Grows;
    Balance(w, now, c);
    SameSafe(w, now, p, c);
    WriteSafe(w, w, now, p, c, PlainStep(w, now, r, Loaded, c).cell, None);
  }

  lemma CheckedSafe(w: World, now: Time, p: Pid, r: ReqId, snap: Request, c: Cell)
    requires CellInv(w, now, c) && WorkerLink(w, p, Checked(snap), c) && !Missing(c)
    ensures Safe(w, now, p, r, c, PlainStep(w, now, r, Checked(snap), c))
  {
    hide CellInv, Guar, Grows;
    Balance(w, now, c);
    SameSafe(w, now, p, c);
    WriteSafe(w, w, now, p, c, PlainStep(w, now, r, Checked(snap), c).cell, None);
  }

  lemma StartedSafe(w: World, now: Time, p: Pid, r: ReqId, snap: Request, c: Cell)
    requires CellInv(w, now, c) && WorkerLink(w, p, Started(snap), c) && !Missing(c)
    ensures Safe(w, now, p, r, c, PlainStep(w, now, r, Started(snap), c))
  {
    hide CellInv, Guar, Grows;
    Balance(w, now, c);
    SameSafe(w, now, p, c);
    WriteSafe(w, w, now, p, c, PlainStep(w, now, r, Started(snap), c).cell, Some(LogStarted));
  }

  // ---------- the catch block ----------

  lemma CaughtSafe(w: World, now: Time, p: Pid, r: ReqId, snap: Request, c: Cell)
    requires CellInv(w, now, c) && WorkerLink(w, p, Caught(snap), c) && !Missing(c)
    ensures Safe(w, now, p, r, c, PlainStep(w, now, r, Caught(snap), c))
  {
    hide CellInv, Guar, Grows;
    Balance(w, now, c);
    SameSafe(w, now, p, c);
    WriteSafe(w, w, now, p, c, PlainStep(w, now, r, Caught(snap), c).cell, None);
  }

  lemma CountedSafe(w: World, now: Time, p: Pid, r: ReqId, snap: Request, c: Cell)
    requires CellInv(w, now, c) && WorkerLink(w, p, Counted(snap), c) && !Missing(c)
    ensures Safe(w, now, p, r, c, PlainStep(w, now, r, Counted(snap), c))
  {
    hide CellInv, Guar, Grows;
    Balance(w, now, c);
    SameSafe(w, now, p, c);
    if snap.retryCount + 1 >= MAX_ATTEMPTS { WriteSafe(w, w, now, p, c, PlainStep(w, now, r, Counted(snap), c).cell, None); }
  }

  lemma RereadSafe(w: World, now: Time, p: Pid, r: ReqId, snap: Request, attempts: nat, c: Cell)
    requires CellInv(w, now, c) && WorkerLink(w, p, Reread(snap, attempts), c) && !Missing(c)
    ensures Safe(w, now, p, r, c, PlainStep(w, now, r, Reread(snap, attempts), c))
  {
    hide CellInv, Guar, Grows;
    Balance(w, now, c);
    SameSafe(w, now, p, c);
    WriteSafe(w, w, now, p, c, PlainStep(w, now, r, Reread(snap, attempts), c).cell, None);
  }

  lemma PlainStepSafe(w: World, now: Time, p: Pid, r: ReqId, pc: WorkerPc, c: Cell)
    requires CellInv(w, now, c) && WorkerLink(w, p, pc, c) && !Missing(c) && !InTry(pc)
    ensures Safe(w, now, p, r, c, PlainStep(w, now, r, pc, c))
  {
    hide *;
    if pc.Caught? { CaughtSafe(w, now, p, r, pc.snap, c); }
    else if pc.Counted? { CountedSafe(w, now, p, r, pc.snap, c); }
    else if pc.Reread? { RereadSafe(w, now, p, r, pc.snap, pc.attempts, c); }
    else if pc.Loaded? { LoadedSafe(w, now, p, r, c); }
    else if pc.Checked? { CheckedSafe(w, now, p, r, pc.snap, c); }
    else if pc.Started? { StartedSafe(w, now, p, r, pc.snap, c); }
    else { ClaimedSafe(w, now, p, r, pc, c); }
  }

  // ---------- the try block ----------

  lemma ReturnSafe(w: World, now: Time, p: Pid, r: ReqId, snap: Request, c: Cell, result: Result)
    requires CellInv(w, now, c) && Attempting(p, c) && Current(snap, c.row.value.request, c.hist.intent)
    requires !c.hist.intent.wallet.walletType.SSS?
    requires HasResult(w, c.(hist := c.hist.(successes := c.hist.successes + 1)), result)
    ensures Safe(w, now, p, r, c, Return(w, r, snap, c, result))
  {
    assert Faithful(c.row.value.request, c.hist.intent);
    hide CellInv, Guar, Grows;
    Balance(w, now, c);
    SameSafe(w, now, p, c);
    WriteSafe(w, w, now, p, c, Return(w, r, snap, c, result).cell, None);
  }

  lemma ReturnGrows(w: World, w': World, now: Time, p: Pid, r: ReqId, snap: Request, c: Cell, result: Result)
    requires CellInv(w', now, c) && Attempting(p, c) && Current(snap, c.row.value.request, c.hist.intent) && Grows(w, w')
    requires !c.hist.intent.wallet.walletType.SSS?
    requires HasResult(w', c.(hist := c.hist.(successes := c.hist.successes + 1)), result)
    ensures Safe(w, now, p, r, c, Return(w', r, snap, c, result))
  {
    hide CellInv, Guar, Grows, WorkerLink;
    ReturnSafe(w', now, p, r, snap, c, result);
  }

  lemma MpcSafe(w: World, now: Time, p: Pid, r: ReqId, snap: Request, c: Cell)
    requires CellInv(w, now, c) && WorkerLink(w, p, Calling(snap), c) && !Missing(c) && snap.walletType.MPC?
    ensures Safe(w, now, p, r, c, TryStep(w, r, Calling(snap), c))
  {
    var w' := w.(transfers := w.transfers + [Transfer(snap.to, snap.amount, Pending)]);
    assert Grows(w, w');
    assert CellInv(w', now, c) by { InvGrows(w, w', now, c); }
    hide CellInv, Guar, Grows;
    ReturnGrows(w, w', now, p, r, snap, c, ExternalPending(|w.transfers|));
  }

  lemma InvGrows(w: World, w': World, now: Time, c: Cell)
    requires CellInv(w, now, c) && Grows(w, w')
    ensures CellInv(w', now, c)
  {
    hide Counters, ApprovalsValid, AuditTrue, Faithful, HistoryInv;
  }

  lemma DirectSafe(w: World, now: Time, p: Pid, r: ReqId, snap: Request, c: Cell)
    requires CellInv(w, now, c) && WorkerLink(w, p, Calling(snap), c) && !Missing(c) && !snap.walletType.MPC?
    ensures Safe(w, now, p, r, c, TryStep(w, r, Calling(snap), c))
  {
    Balance(w, now, c);
    assert Faithful(c.row.value.request, c.hist.intent);
    hide CellInv, Guar, Grows, Counters, Quiet;
    SameSafe(w, now, p, c);
    if !snap.walletType.SSS? && !(snap.walletType.POLICY_GUARD? && !PolicyGuardV1.Check(snap.to, snap.amount)) {
      ReturnSafe(w, now, p, r, snap, c, OnChain);
    } else {
      CaughtLink(w, p, snap, c);
    }
  }

  /** A throw before the result leads to the catch block with everything that it relies on. */
  lemma CaughtLink(w: World, p: Pid, snap: Request, c: Cell)
    requires Attempting(p, c) && Current(snap, c.row.value.request, c.hist.intent)
    ensures WorkerLink(w, p, Caught(snap), c)
  {
  }

  lemma ReadySafe(w: World, now: Time, p: Pid, r: ReqId, snap: Request, c: Cell)
    requires CellInv(w, now, c) && WorkerLink(w, p, Ready(snap), c) && !Missing(c)
    ensures Safe(w, now, p, r, c, TryStep(w, r, Ready(snap), c))
  {
    hide CellInv, Guar, Grows;
    Balance(w, now, c);
    SameSafe(w, now, p, c);
    WriteSafe(w, w, now, p, c, TryStep(w, r, Ready(snap), c).cell, None);
  }

  lemma SssSendSafe(w: World, now: Time, p: Pid, r: ReqId, pc: WorkerPc, c: Cell)
    requires CellInv(w, now, c) && WorkerLink(w, p, pc, c) && !Missing(c) && InTry(pc)
    requires !pc.Ready? && !pc.Calling? && !pc.SssMined? && !pc.SssStripped? && !pc.Returned? && !pc.Recorded? && !pc.Succeeded?
    ensures Safe(w, now, p, r, c, TryStep(w, r, pc, c))
  {
    var m := TryStep(w, r, pc, c);
    assert Grows(w, m.world);
    InvGrows(w, m.world, now, c);
    SameSafe(w, now, p, c);
    CaughtLink(w, p, pc.snap, c);
    hide CellInv, Guar, Grows;
    assert OwnLink(m.world, p, r, m.proc, m.cell);
  }

  lemma SssStrippedSafe(w: World, now: Time, p: Pid, r: ReqId, snap: Request, c: Cell)
    requires CellInv(w, now, c) && WorkerLink(w, p, SssStripped(snap), c) && !Missing(c)
    ensures Safe(w, now, p, r, c, TryStep(w, r, SssStripped(snap), c))
  {
    hide CellInv, Guar, Grows;
    Balance(w, now, c);
    SameSafe(w, now, p, c);
    WriteSafe(w, w, now, p, c, TryStep(w, r, SssStripped(snap), c).cell, Some(LogSssBroadcasted));
  }

  lemma SssMinedSafe(w: World, now: Time, p: Pid, r: ReqId, snap: Request, meta: Meta, c: Cell)
    requires CellInv(w, now, c) && WorkerLink(w, p, SssMined(snap, meta), c) && !Missing(c)
    ensures Safe(w, now, p, r, c, TryStep(w, r, SssMined(snap, meta), c))
  {
    Balance(w, now, c);
    assert Faithful(c.row.value.request, c.hist.intent);
    hide CellInv, Guar, Grows;
    SameSafe(w, now, p, c);
    WriteSafe(w, w, now, p, c, TryStep(w, r, SssMined(snap, meta), c).cell, None);
  }

  lemma OnChainSafe(w: World, now: Time, p: Pid, r: ReqId, snap: Request, c: Cell)
    requires CellInv(w, now, c) && WorkerLink(w, p, Returned(snap, OnChain), c) && !Missing(c)
    ensures Safe(w, now, p, r, c, TryStep(w, r, Returned(snap, OnChain), c))
  {
    Balance(w, now, c);
    assert Faithful(c.row.value.request, c.hist.intent);
    hide CellInv, Guar, Grows;
    SameSafe(w, now, p, c);
    WriteSafe(w, w, now, p, c, TryStep(w, r, Returned(snap, OnChain), c).cell, None);
  }

  lemma ExternalSafe(w: World, now: Time, p: Pid, r: ReqId, snap: Request, id: nat, c: Cell)
    requires CellInv(w, now, c) && WorkerLink(w, p, Returned(snap, ExternalPending(id)), c) && !Missing(c)
    ensures Safe(w, now, p, r, c, TryStep(w, r, Returned(snap, ExternalPending(id)), c))
  {
    Balance(w, now, c);
    assert Faithful(c.row.value.request, c.hist.intent);
    hide CellInv, Guar, Grows;
    SameSafe(w, now, p, c);
    WriteSafe(w, w, now, p, c, TryStep(w, r, Returned(snap, ExternalPending(id)), c).cell, None);
  }

  lemma RecordedSafe(w: World, now: Time, p: Pid, r: ReqId, snap: Request, result: Result, c: Cell)
    requires CellInv(w, now, c) && WorkerLink(w, p, Recorded(snap, result), c) && !Missing(c)
    ensures Safe(w, now, p, r, c, TryStep(w, r, Recorded(snap, result), c))
  {
    hide CellInv, Guar, Grows;
    Balance(w, now, c);
    SameSafe(w, now, p, c);
    WriteSafe(w, w, now, p, c, TryStep(w, r, Recorded(snap, result), c).cell, None);
  }

  lemma SucceededSafe(w: World, now: Time, p: Pid, r: ReqId, snap: Request, event: AuditEvent, c: Cell)
    requires CellInv(w, now, c) && WorkerLink(w, p, Succeeded(snap, event), c) && !Missing(c)
    ensures Safe(w, now, p, r, c, TryStep(w, r, Succeeded(snap, event), c))
  {
    hide CellInv, Guar, Grows;
    Balance(w, now, c);
    SameSafe(w, now, p, c);
    WriteSafe(w, w, now, p, c, TryStep(w, r, Succeeded(snap, event), c).cell, Some(event));
  }

  lemma TryStepSafe(w: World, now: Time, p: Pid, r: ReqId, pc: WorkerPc, c: Cell)
    requires CellInv(w, now, c) && WorkerLink(w, p, pc, c) && !Missing(c) && InTry(pc)
    ensures Safe(w, now, p, r, c, TryStep(w, r, pc, c))
  {
    hide *;
    if pc.Ready? { ReadySafe(w, now, p, r, pc.snap, c); }
    else if pc.Calling? && pc.snap.walletType.MPC? { MpcSafe(w, now, p, r, pc.snap, c); }
    else if pc.Calling? { DirectSafe(w, now, p, r, pc.snap, c); }
    else if pc.SssMined? { SssMinedSafe(w, now, p, r, pc.snap, pc.meta, c); }
    else if pc.SssStripped? { SssStrippedSafe(w, now, p, r, pc.snap, c); }
    else if pc.Returned? && pc.result.OnChain? { OnChainSafe(w, now, p, r, pc.snap, c); }
    else if pc.Returned? { ExternalSafe(w, now, p, r, pc.snap, pc.result.id, c); }
    else if pc.Recorded? { RecordedSafe(w, now, p, r, pc.snap, pc.result, c); }
    else if pc.Succeeded? { SucceededSafe(w, now, p, r, pc.snap, pc.event, c); }
    else { SssSendSafe(w, now, p, r, pc, c); }
  }

  lemma StopSafe(w: World, now: Time, p: Pid, r: ReqId, c: Cell)
    requires CellInv(w, now, c)
    ensures Safe(w, now, p, r, c, Moved(Idle, c, w))
    ensures Safe(w, now, p, r, c, Moved(Idle, Abandon(c), w))
  {
    SameSafe(w, now, p, c);
    SameSafe(w, now, p, Abandon(c));
  }

  lemma CatchSafe(w: World, now: Time, p: Pid, r: ReqId, pc: WorkerPc, c: Cell)
    requires CellInv(w, now, c) && WorkerLink(w, p, pc, c) && InTry(pc) && !AfterReturn(pc)
    ensures Safe(w, now, p, r, c, Moved(Worker(r, Caught(pc.snap)), c, w))
  {
    SameSafe(w, now, p, c);
    hide CellInv, Guar, Grows;
    if !Missing(c) { CaughtLink(w, p, pc.snap, c); }
  }

  lemma LateFaultSafe(w: World, now: Time, p: Pid, r: ReqId, pc: WorkerPc, c: Cell)
    requires CellInv(w, now, c) && WorkerLink(w, p, pc, c) && AfterReturn(pc) && !Missing(c)
    ensures Safe(w, now, p, r, c, Moved(Worker(r, Caught(pc.snap)), c.(hist := c.hist.(lateFaults := c.hist.lateFaults + 1)), w))
  {
    hide CellInv, Guar, Grows;
    Balance(w, now, c);
    SameSafe(w, now, p, c);
    WriteSafe(w, w, now, p, c, c.(hist := c.hist.(lateFaults := c.hist.lateFaults + 1)), None);
  }

  lemma DroppedSafe(w: World, now: Time, p: Pid, r: ReqId, pc: WorkerPc, c: Cell)
    requires CellInv(w, now, c) && WorkerLink(w, p, pc, c) && InTry(pc) && Missing(c)
    ensures Safe(w, now, p, r, c, Moved(Worker(r, Caught(pc.snap)), c, w))
  {
    SameSafe(w, now, p, c);
    hide CellInv, Guar, Grows;
  }

  lemma ThrowSafe(w: World, now: Time, p: Pid, r: ReqId, pc: WorkerPc, c: Cell, op: Op)
    requires CellInv(w, now, c) && WorkerLink(w, p, pc, c) && (!op.Ok? || Missing(c))
    ensures Safe(w, now, p, r, c, WorkStep(w, now, r, pc, c, op))
  {
    hide CellInv, WorkerLink, Safe, PlainStep, TryStep, InTry, AfterReturn, Missing, Abandon;
    StopSafe(w, now, p, r, c);
    if !op.Die? {
      if Missing(c) { if InTry(pc) { DroppedSafe(w, now, p, r, pc, c); } }
      else if AfterReturn(pc) { LateFaultSafe(w, now, p, r, pc, c); }
      else if InTry(pc) { CatchSafe(w, now, p, r, pc, c); }
    }
  }

  lemma WorkStepSafe(w: World, now: Time, p: Pid, r: ReqId, pc: WorkerPc, c: Cell, op: Op)
    requires CellInv(w, now, c) && WorkerLink(w, p, pc, c)
    ensures Safe(w, now, p, r, c, WorkStep(w, now, r, pc, c, op))
  {
    hide CellInv, WorkerLink, Safe, PlainStep, TryStep, InTry, Missing;
    if !op.Ok? || Missing(c) { ThrowSafe(w, now, p, r, pc, c, op); }
    else if InTry(pc) { TryStepSafe(w, now, p, r, pc, c); }
    else { PlainStepSafe(w, now, p, r, pc, c); }
  }

  /** Appending an audit row: an exit event only by the process that made the exit, and only once. */
  lemma AddAuditSafe(w: World, now: Time, p: Pid, r: ReqId, e: AuditEvent, c: Cell)
    requires CellInv(w, now, c) && c.row.Some? && (IsExit(e) ==> OwesExit(p, e, c))
    ensures Safe(w, now, p, r, c, Moved(Idle, AddAudit(c, e), w))
  {
    var row, row' := c.row.value, AddAudit(c, e).row.value;
    assert Exits(row') == Exits(row) + if IsExit(e) then 1 else 0;
    assert forall x: AuditEvent :: x in row'.audit ==> x in row.audit || x == e;
    assert AuditTrue(row', c.hist);
    assert RowInv(w, now, row', c.hist);
  }

  lemma ReplySafe(w: World, now: Time, p: Pid, c: Cell, c': Cell, a: Answer)
    requires CellInv(w, now, c') && Guar(p, c, c') && a.key == c'.hist.intent.key
    ensures CellInv(w, now, c'.(hist := c'.hist.(answers := c'.hist.answers + [a])))
    ensures Guar(p, c, c'.(hist := c'.hist.(answers := c'.hist.answers + [a])))
  {
  }

  lemma NoteSafe(w: World, now: Time, p: Pid, r: ReqId, before: Option<AuditEvent>, last: AuditEvent, reply: Option<Answer>, c: Cell)
    requires CellInv(w, now, c) && NoteLink(p, before, last, reply, c) && c.row.Some?
    ensures Safe(w, now, p, r, c, NoteStep(w, r, before, last, reply, c, Ok))
  {
    hide CellInv, Guar, Grows;
    var e := if before.Some? then before.value else last;
    AddAuditSafe(w, now, p, r, e, c);
    if before.None? && reply.Some? { ReplySafe(w, now, p, c, AddAudit(c, e), reply.value); }
  }

  lemma NoteStepSafe(w: World, now: Time, p: Pid, r: ReqId, before: Option<AuditEvent>, last: AuditEvent, reply: Option<Answer>, c: Cell, op: Op)
    requires CellInv(w, now, c) && NoteLink(p, before, last, reply, c)
    ensures Safe(w, now, p, r, c, NoteStep(w, r, before, last, reply, c, op))
  {
    hide CellInv, NoteLink, Safe;
    if !op.Ok? || c.row.None? { StopSafe(w, now, p, r, c); } else { NoteSafe(w, now, p, r, before, last, reply, c); }
  }
}

/** The life cycle of a request across its two tables, the ways out of PENDING, the admin approvals, and the
  * checks at creation: over every run. */
module ApprovalTheorems {
  import opened Domain
  import opened Pipeline
  import opened CellInvariant
  import opened OtherSteps
  import opened RunInvariant
  import opened StepInvariant
  import opened Guarantees
  import opened ExecutionTheorems

  // ---------- two tables ----------

  /** A queue row exists exactly for requests that were queued; PENDING and its other exits exist on MULTISIG
    * wallets only; APPROVED is never used. */
  lemma QueueRowIffQueued(acts: seq<Action>, r: ReqId)
    requires r < |Run(Initial, acts).cells| && Run(Initial, acts).cells[r].row.Some?
    ensures
      var row := Run(Initial, acts).cells[r].row.value;
      && (row.queue.Some? <==> row.request.status in {QUEUED, PROCESSING, EXECUTED, FAILED})
      && (row.queue.None? <==> row.request.status in {PENDING, REJECTED, EXPIRED})
      && (row.queue.None? ==> row.request.walletType.MULTISIG?)
  {
    CellAt(acts, r);
  }

  /** No write by id of a worker or a settlement poll lands on a request that is PENDING, REJECTED or EXPIRED. */
  lemma PollsLeaveUnqueuedAlone(acts: seq<Action>, p: Pid, op: Op, r: ReqId)
    requires r < |Run(Initial, acts).cells| && Run(Initial, acts).cells[r].row.Some?
    requires Run(Initial, acts).cells[r].row.value.request.status in {PENDING, REJECTED, EXPIRED}
    requires ProcOf(Run(Initial, acts), p).Worker? || ProcOf(Run(Initial, acts), p).Settling?
    ensures Step(Run(Initial, acts), Advance(p, op)).cells[r] == Run(Initial, acts).cells[r]
  {
    hide CellInv, Run;
    var s := Run(Initial, acts);
    Reachable(acts);
    InvParts(s);
    QueueRowIffQueued(acts, r);
    assert ProcLink(s.world, s.now, p, s.procs[p], s.cells);
    UnqueuedAlone(s, p, op, r);
  }

  lemma UnqueuedAlone(s: State, p: Pid, op: Op, r: ReqId)
    requires r < |s.cells| && s.cells[r].row.Some? && s.cells[r].row.value.queue.None?
    requires p in s.procs && (s.procs[p].Worker? || s.procs[p].Settling?) && ProcLink(s.world, s.now, p, s.procs[p], s.cells)
    ensures Step(s, Advance(p, op)).cells[r] == s.cells[r]
  {
    hide WorkStep, SettleStep;
    assert s.procs[p].Worker? && s.procs[p].r == r ==> false by {
      hide Step;
      if s.procs[p].Worker? && s.procs[p].r == r { WorkerQueued(s.world, p, s.procs[p].pc, s.cells[r]); }
    }
  }

  lemma WorkerQueued(w: World, p: Pid, pc: WorkerPc, c: Cell)
    requires WorkerLink(w, p, pc, c) && c.row.Some?
    ensures c.row.value.queue.Some?
  {
  }

  // ---------- ways out of PENDING ----------

  /** The one way a request left PENDING, if it did. */
  datatype Exit = Open | ByQueueing | ByRejection | ByExpiry

  function ExitOf(row: Row): Exit {
    if row.request.status.PENDING? then Open
    else if row.request.status.REJECTED? then ByRejection
    else if row.request.status.EXPIRED? then ByExpiry
    else ByQueueing
  }

  /** A request that left PENDING one way never leaves it another way, whatever races it. */
  lemma OneExit(acts: seq<Action>, more: seq<Action>, r: ReqId)
    requires r < |Run(Initial, acts).cells| && Run(Initial, acts).cells[r].row.Some?
    requires !ExitOf(Run(Initial, acts).cells[r].row.value).Open?
    ensures r < |Run(Initial, acts + more).cells|
    ensures Run(Initial, acts + more).cells[r].row.Some? ==>
              ExitOf(Run(Initial, acts + more).cells[r].row.value) == ExitOf(Run(Initial, acts).cells[r].row.value)
  {
    Reachable(acts);
    RunSplit(Initial, acts, more);
    RunGuards(Run(Initial, acts), more, r);
    CellAt(acts, r);
    CellAt(acts + more, r);
  }

  /** The audit log never holds two exits of a request, and never one that did not happen. */
  lemma AuditTellsTheExit(acts: seq<Action>, r: ReqId)
    requires r < |Run(Initial, acts).cells| && Run(Initial, acts).cells[r].row.Some?
    ensures
      var row := Run(Initial, acts).cells[r].row.value;
      && row.audit[LogQueued] + row.audit[LogRejected] + row.audit[LogExpired] <= 1
      && (LogQueued in row.audit ==> ExitOf(row) == ByQueueing)
      && (LogRejected in row.audit ==> ExitOf(row) == ByRejection)
      && (LogExpired in row.audit ==> ExitOf(row) == ByExpiry)
  {
    CellAt(acts, r);
  }

  /** A request expires only after its deadline. */
  lemma ExpiresLate(acts: seq<Action>, r: ReqId)
    requires r < |Run(Initial, acts).cells| && Run(Initial, acts).cells[r].row.Some?
    requires Run(Initial, acts).cells[r].row.value.request.status.EXPIRED?
    ensures
      var deadline := Run(Initial, acts).cells[r].row.value.request.expiresAt;
      deadline.Some? && deadline.value < Run(Initial, acts).now
  {
    CellAt(acts, r);
  }

  /** The deadline of a MULTISIG request is ten minutes after the insert that created it, for good; no other has one. */
  lemma DeadlineIsTenMinutes(acts: seq<Action>, a: Action, more: seq<Action>, r: ReqId)
    requires r == |Run(Initial, acts).cells| < |Run(Initial, acts + [a]).cells|
    ensures r < |Run(Initial, acts + [a] + more).cells|
    ensures Run(Initial, acts + [a] + more).cells[r].row.Some? ==>
              var q := Run(Initial, acts + [a] + more).cells[r].row.value.request;
              q.expiresAt == if q.walletType.MULTISIG? then Some(Run(Initial, acts).now + 600_000) else None
  {
    hide Run, Step, Inv, CellInv;
    RunSnoc(Initial, acts, a);
    NewDeadline(Run(Initial, acts), a);
    Reachable(acts + [a]);
    RunSplit(Initial, acts + [a], more);
    RunGuards(Run(Initial, acts + [a]), more, r);
  }

  lemma NewDeadline(s: State, a: Action)
    requires |s.cells| < |Step(s, a).cells|
    ensures
      var row := Step(s, a).cells[|s.cells|].row;
      row.Some? && row.value.request.expiresAt == if row.value.request.walletType.MULTISIG? then Some(s.now + 600_000) else None
  {
    hide WorkStep, NoteStep, SettleStep, ExpireStep;
  }

  // ---------- the audit log ----------

  predicate AuditKept(c: Cell, c': Cell) {
    c.row.Some? ==> c'.row.Some? && c.row.value.audit <= c'.row.value.audit
  }

  lemma AuditWorks(w: World, now: Time, r: ReqId, pc: WorkerPc, c: Cell, op: Op)
    ensures AuditKept(c, WorkStep(w, now, r, pc, c, op).cell)
  {
  }

  lemma AuditNotes(w: World, r: ReqId, before: Option<AuditEvent>, last: AuditEvent, reply: Option<Answer>, c: Cell, op: Op)
    ensures AuditKept(c, NoteStep(w, r, before, last, reply, c, op).cell)
  {
  }

  lemma AuditSettles(w: World, todo: seq<Snapshot>, sp: SettlePc, c: Cell, op: Op)
    requires todo != []
    ensures AuditKept(c, SettleStep(w, todo, sp, c, op).cell)
  {
  }

  lemma AuditExpires(w: World, p: Pid, ids: seq<ReqId>, logging: bool, c: Cell, op: Op)
    requires ids != []
    ensures AuditKept(c, ExpireStep(w, p, ids, logging, c, op).cell)
  {
  }

  lemma AuditAdvances(s: State, p: Pid, op: Op, r: ReqId)
    requires r < |s.cells|
    ensures r < |AdvanceStep(s, p, op).cells| && AuditKept(s.cells[r], AdvanceStep(s, p, op).cells[r])
  {
    hide WorkStep, NoteStep, SettleStep, ExpireStep;
    match ProcOf(s, p)
    case Worker(i, pc) => if i == r { AuditWorks(s.world, s.now, r, pc, s.cells[r], op); }
    case Noting(i, before, last, reply) => if i == r { AuditNotes(s.world, r, before, last, reply, s.cells[r], op); }
    case Settling(todo, sp) => if todo != [] && todo[0].r == r { AuditSettles(s.world, todo, sp, s.cells[r], op); }
    case Expiring(ids, logging) => if ids != [] && ids[0] == r { AuditExpires(s.world, p, ids, logging, s.cells[r], op); }
    case _ =>
  }

  lemma AuditStep(s: State, a: Action, r: ReqId)
    requires r < |s.cells| && s.cells[r].row.Some?
    ensures r < |Step(s, a).cells|
    ensures Step(s, a).cells[r].row.Some? ==> s.cells[r].row.value.audit <= Step(s, a).cells[r].row.value.audit
  {
    hide AdvanceStep;
    if a.Advance? { AuditAdvances(s, a.p, a.op, r); }
  }

  /** The audit log is append-only: no step of anybody takes an entry of a request away, unless the request goes with it. */
  lemma {:induction false} AuditOnlyGrows(acts: seq<Action>, more: seq<Action>, r: ReqId)
    requires r < |Run(Initial, acts).cells|
    ensures r < |Run(Initial, acts + more).cells|
    ensures Run(Initial, acts + more).cells[r].row.Some? ==>
              Run(Initial, acts).cells[r].row.Some? && Run(Initial, acts).cells[r].row.value.audit <= Run(Initial, acts + more).cells[r].row.value.audit
  {
    hide Run, Step, Inv, Guar;
    if |more| == 0 {
      assert acts + more == acts;
    } else {
      var m, a := more[..|more| - 1], more[|more| - 1];
      AuditOnlyGrows(acts, m, r);
      assert acts + more == acts + m + [a];
      RunSnoc(Initial, acts + m, a);
      var s := Run(Initial, acts + m);
      Reachable(acts + m);
      StepGuards(s, a, r);
      GoneStaysGone(Actor(a), s.cells[r], Step(s, a).cells[r]);
      if s.cells[r].row.Some? { AuditStep(s, a, r); }
    }
  }

  lemma GoneStaysGone(p: Pid, c: Cell, c': Cell)
    requires Guar(p, c, c')
    ensures c.row.None? ==> c'.row.None?
  {
  }

  // ---------- approvals ----------

  predicate TwoTimelyApprovals(row: Row) {
    && |row.approvals| == 2 && row.approvals[0].admin != row.approvals[1].admin
    && row.request.expiresAt.Some?
    && row.approvals[0].at <= row.request.expiresAt.value && row.approvals[1].at <= row.request.expiresAt.value
  }

  /** A MULTISIG request is executed only on exactly two approvals, by two admins, both in time. */
  lemma ExecutionNeedsTwoApprovals(acts: seq<Action>, a: Action, r: ReqId)
    requires Marks(Run(Initial, acts), a, r, Execution)
    requires Run(Initial, acts).cells[r].hist.intent.wallet.walletType.MULTISIG?
    ensures Run(Initial, acts).cells[r].row.Some? && TwoTimelyApprovals(Run(Initial, acts).cells[r].row.value)
  {
    hide CellInv, Run;
    var s := Run(Initial, acts);
    Reachable(acts);
    InvParts(s);
    assert ProcLink(s.world, s.now, a.p, s.procs[a.p], s.cells);
    CellAt(acts, r);
    CallingIsApproved(s.world, s.now, a.p, ProcOf(s, a.p).pc, s.cells[r]);
  }

  lemma CallingIsApproved(w: World, now: Time, p: Pid, pc: WorkerPc, c: Cell)
    requires CellInv(w, now, c) && WorkerLink(w, p, pc, c) && pc.Ready? && c.hist.intent.wallet.walletType.MULTISIG?
    ensures c.row.Some? && TwoTimelyApprovals(c.row.value)
  {
  }

  /** Once a request is queued its approvals are closed. */
  lemma ApprovalsClosed(acts: seq<Action>, more: seq<Action>, r: ReqId)
    requires r < |Run(Initial, acts).cells| && !Missing(Run(Initial, acts).cells[r])
    ensures r < |Run(Initial, acts + more).cells|
    ensures Run(Initial, acts + more).cells[r].row.Some? ==>
              Run(Initial, acts + more).cells[r].row.value.approvals == Run(Initial, acts).cells[r].row.value.approvals
  {
    hide CellInv, Run, Inv;
    Reachable(acts);
    RunSplit(Initial, acts, more);
    RunGuards(Run(Initial, acts), more, r);
  }

  /** Up to the deadline itself. */
  predicate InTime(q: Request, now: Time) { q.expiresAt.Some? ==> now <= q.expiresAt.value }

  predicate Approvable(s: State, p: Pid, r: ReqId, admin: nat, op: Op) {
    && ProcOf(s, p).Idle? && op.Ok? && r < |s.cells| && s.cells[r].row.Some?
    && s.cells[r].row.value.request.status.PENDING? && InTime(s.cells[r].row.value.request, s.now)
    && forall i :: 0 <= i < |s.cells[r].row.value.approvals| ==> s.cells[r].row.value.approvals[i].admin != admin
  }

  /** An approval changes something exactly when the request is PENDING, not past its deadline, and not yet approved
    * by this admin; every other call leaves all tables as they were, also where the code writes EXPIRED and throws. */
  lemma ApproveEffect(acts: seq<Action>, p: Pid, r: ReqId, admin: nat, op: Op)
    ensures Step(Run(Initial, acts), Approve(p, r, admin, op)) != Run(Initial, acts) <==> Approvable(Run(Initial, acts), p, r, admin, op)
  {
    hide CellInv, Run;
    var s := Run(Initial, acts);
    if r < |s.cells| && s.cells[r].row.Some? {
      QueueRowIffQueued(acts, r);
      var row := s.cells[r].row.value;
      assert |row.approvals + [Approval(admin, s.now)]| != |row.approvals|;
    }
  }

  predicate Rejectable(s: State, p: Pid, r: ReqId, op: Op) {
    && ProcOf(s, p).Idle? && op.Ok? && r < |s.cells| && s.cells[r].row.Some?
    && s.cells[r].row.value.request.status.PENDING? && InTime(s.cells[r].row.value.request, s.now)
  }

  lemma RejectEffect(s: State, p: Pid, r: ReqId, op: Op)
    ensures Step(s, Reject(p, r, op)) != s <==> Rejectable(s, p, r, op)
    ensures Rejectable(s, p, r, op) ==> ExitOf(Step(s, Reject(p, r, op)).cells[r].row.value) == ByRejection
  {
    if Rejectable(s, p, r, op) {
      assert Step(s, Reject(p, r, op)).cells[r].row.value.request.status.REJECTED?;
    }
  }

  // ---------- creation ----------

  predicate Asks(proc: Proc, i: Intent) {
    (proc.Looking? || proc.Inserting? || proc.Conflicted?) && proc.intent == i
  }

  /** The k-th action of a run is a withdraw call with this content, made while the wallet row was as recorded. */
  predicate AskedAt(acts: seq<Action>, k: nat, i: Intent) {
    && k < |acts| && acts[k].Withdraw? && acts[k].intent == i
    && i.walletId in Run(Initial, acts[..k]).wallets && Run(Initial, acts[..k]).wallets[i.walletId] == i.wallet
  }

  ghost predicate Asked(acts: seq<Action>, i: Intent) { exists k: nat :: AskedAt(acts, k, i) }

  lemma AskedLater(acts: seq<Action>, a: Action, i: Intent)
    requires Asked(acts, i)
    ensures Asked(acts + [a], i)
  {
    var k: nat :| AskedAt(acts, k, i);
    assert (acts + [a])[..k] == acts[..k];
    assert AskedAt(acts + [a], k, i);
  }

  lemma AdvanceAsks(s: State, p: Pid, op: Op, q: Pid, i: Intent)
    requires Asks(ProcOf(AdvanceStep(s, p, op), q), i)
    ensures Asks(ProcOf(s, q), i)
  {
    hide WorkStep;
    if ProcOf(s, p).Worker? { WorkAsksNothing(s, p, op); }
  }

  lemma StartAsks(s: State, a: Action, q: Pid, i: Intent)
    requires a.Reserve? || a.Settle? || a.Expire? || a.Approve? || a.Reject? || a.Withdraw?
    requires Asks(ProcOf(StartStep(s, a), q), i)
    ensures Asks(ProcOf(s, q), i) || (a.Withdraw? && a.intent == i && i.walletId in s.wallets && s.wallets[i.walletId] == i.wallet)
  {
  }

  lemma NewAsk(s: State, a: Action, p: Pid, i: Intent)
    requires Asks(ProcOf(Step(s, a), p), i)
    ensures Asks(ProcOf(s, p), i) || (a.Withdraw? && a.intent == i && i.walletId in s.wallets && s.wallets[i.walletId] == i.wallet)
  {
    hide AdvanceStep, StartStep, Asks;
    if a.Advance? { AdvanceAsks(s, a.p, a.op, p, i); }
    else if a.Reserve? || a.Settle? || a.Expire? || a.Approve? || a.Reject? || a.Withdraw? { StartAsks(s, a, p, i); }
    else { assert ProcOf(Step(s, a), p) == ProcOf(s, p); }
  }

  lemma WorkAsksNothing(s: State, p: Pid, op: Op)
    requires ProcOf(s, p).Worker?
    ensures !ProcOf(AdvanceStep(s, p, op), p).Looking? && !ProcOf(AdvanceStep(s, p, op), p).Inserting? && !ProcOf(AdvanceStep(s, p, op), p).Conflicted?
  {
  }

  lemma NewCellAsked(s: State, a: Action)
    ensures |s.cells| <= |Step(s, a).cells| <= |s.cells| + 1
    ensures |Step(s, a).cells| > |s.cells| ==> a.Advance? && Asks(ProcOf(s, a.p), Step(s, a).cells[|s.cells|].hist.intent)
  {
    hide WorkStep, NoteStep, SettleStep, ExpireStep;
  }

  /** Everything that the pipeline holds was asked for by a withdraw call of this run. */
  lemma {:induction false} EverythingAsked(acts: seq<Action>)
    ensures forall p, i :: Asks(ProcOf(Run(Initial, acts), p), i) ==> Asked(acts, i)
    ensures forall r :: 0 <= r < |Run(Initial, acts).cells| ==> Asked(acts, Run(Initial, acts).cells[r].hist.intent)
  {
    hide Step, Asked, Inv, Asks;
    if |acts| > 0 {
      RunLast(Initial, acts);
      var before, a := acts[..|acts| - 1], acts[|acts| - 1];
      var s := Run(Initial, before);
      assert acts == before + [a];
      EverythingAsked(before);
      Reachable(before);
      forall p, i | Asks(ProcOf(Step(s, a), p), i) ensures Asked(acts, i) {
        NewAsk(s, a, p, i);
        if Asks(ProcOf(s, p), i) { AskedLater(before, a, i); } else { AskedNow(acts, i); }
      }
      NewCellAsked(s, a);
      forall r | 0 <= r < |Step(s, a).cells| ensures Asked(acts, Step(s, a).cells[r].hist.intent) {
        if r < |s.cells| { StepGuards(s, a, r); IntentKept(s, a, r); }
        AskedLater(before, a, Step(s, a).cells[r].hist.intent);
      }
    } else {
      NothingAsked();
    }
  }

  lemma NothingAsked()
    ensures forall p, i :: !Asks(ProcOf(Initial, p), i)
  {
  }

  lemma IntentKept(s: State, a: Action, r: ReqId)
    requires r < |s.cells| && r < |Step(s, a).cells| && Guar(Actor(a), s.cells[r], Step(s, a).cells[r])
    ensures Step(s, a).cells[r].hist.intent == s.cells[r].hist.intent
  {
  }

  lemma AskedNow(acts: seq<Action>, i: Intent)
    requires |acts| > 0 && acts[|acts| - 1].Withdraw? && acts[|acts| - 1].intent == i
    requires i.walletId in Run(Initial, acts[..|acts| - 1]).wallets && Run(Initial, acts[..|acts| - 1]).wallets[i.walletId] == i.wallet
    ensures Asked(acts, i)
  {
    assert AskedAt(acts, |acts| - 1, i);
  }

  /** Every request in the tables came from a withdraw call by the wallet's owner whose OTP and policy checks, made on
    * the wallet row of that moment, passed; the row still carries that call's wallet, recipient, amount and key. */
  lemma CreatedByCheckedCall(acts: seq<Action>, r: ReqId)
    requires r < |Run(Initial, acts).cells|
    ensures
      var c := Run(Initial, acts).cells[r];
      var i := c.hist.intent;
      && (exists k: nat :: AskedAt(acts, k, i))
      && i.caller == i.wallet.ownerEmail
      && (i.amount >= 10_000_000_000_000_000 ==> i.otp == Some(true))
      && i.to != i.wallet.address
      && (i.wallet.whitelist != {} ==> i.to in i.wallet.whitelist)
      && (i.wallet.singleTxLimit.Some? ==> i.amount <= i.wallet.singleTxLimit.value)
      && (c.row.Some? ==>
            var q := c.row.value.request;
            q.walletId == i.walletId && q.to == i.to && q.amount == i.amount && q.key == i.key && q.walletType == i.wallet.walletType)
  {
    hide Run;
    EverythingAsked(acts);
    assert Asked(acts, Run(Initial, acts).cells[r].hist.intent);
    CellAt(acts, r);
  }
}

/** apps/api/src/admin/admin.service.ts: the approval and the rejection of a MULTISIG withdrawal, each a database
  * transaction that works on its own copy of the request and commits it, or throws and leaves nothing. */
module AdminService {
  import opened Domain
  import opened Pipeline
  import opened CellInvariant
  import opened RunInvariant
  import opened StepInvariant
  import opened ExecutionTheorems
  import opened ApprovalTheorems
  import opened Ownership
  import opened Backend

  datatype ApproveEnd = Interrupted | RequestNotFound | OnlyPending | Expired | OnlyMultisig | AlreadyApproved | Recorded | Queued

  datatype RejectEnd = RejectInterrupted | RejectNotFound | RejectOnlyPending | RejectExpired | Rejected

  /** tx.adminApproval.findFirst */
  method FindApproval(approvals: seq<Approval>, admin: nat) returns (found: bool)
    ensures found <==> HasApproved(approvals, admin)
  {
    found := false;
    var i := 0;
    while i < |approvals| && !found
      invariant 0 <= i <= |approvals|
      invariant !found ==> forall k :: 0 <= k < i ==> approvals[k].admin != admin
      invariant found ==> HasApproved(approvals, admin)
    {
      found := approvals[i].admin == admin;
      i := i + 1;
    }
  }

  /** The callback of approveWithdraw's transaction, on the transaction's copy of the request and its rows. The copy
    * counts only when the callback returns: after the EXPIRED write it throws. */
  method ApproveCallback(now: Time, p: Pid, admin: nat, c: Cell, ticket: nat) returns (end: ApproveEnd, copy: Cell)
    ensures end.RequestNotFound? <==> c.row.None?
    ensures end.Recorded? <==> ApproveTx(now, p, admin, c, ticket) == ApprovalAdded(copy)
    ensures end.Queued? <==> ApproveTx(now, p, admin, c, ticket) == ApprovedAndQueued(copy)
    ensures end.OnlyPending? <==> c.row.Some? && !c.row.value.request.status.PENDING?
    ensures end.Expired? <==> c.row.Some? && c.row.value.request.status.PENDING? && !InTime(c.row.value.request, now)
    ensures end.Expired? ==> copy == c.(row := Some(c.row.value.(request := c.row.value.request.(status := EXPIRED))))
    ensures end.OnlyMultisig? <==>
              c.row.Some? && c.row.value.request.status.PENDING? && InTime(c.row.value.request, now) && !c.row.value.request.walletType.MULTISIG?
    ensures end.AlreadyApproved? <==>
              && c.row.Some? && c.row.value.request.status.PENDING? && InTime(c.row.value.request, now) && c.row.value.request.walletType.MULTISIG?
              && exists i :: 0 <= i < |c.row.value.approvals| && c.row.value.approvals[i].admin == admin
    ensures end.Recorded? || end.Queued? ==> copy.row.Some? && copy.row.value.approvals == c.row.value.approvals + [Approval(admin, now)]
    ensures end.Recorded? ==> |copy.row.value.approvals| < 2 && copy.row.value.request == c.row.value.request && copy.row.value.queue == c.row.value.queue
    ensures end.Queued? ==>
              && |copy.row.value.approvals| >= 2 && copy.row.value.request == c.row.value.request.(status := QUEUED)
              && copy.row.value.queue == Some(Job(ticket, WAITING, 0, now, None))
    ensures !end.Interrupted?
  {
    copy := c;
    if c.row.None? { return RequestNotFound, copy; }
    var row := c.row.value;
    if !row.request.status.PENDING? { return OnlyPending, copy; }
    if row.request.expiresAt.Some? && row.request.expiresAt.value < now {
      copy := c.(row := Some(row.(request := row.request.(status := EXPIRED))));
      return Expired, copy;
    }
    if !row.request.walletType.MULTISIG? { return OnlyMultisig, copy; }
    var existing := FindApproval(row.approvals, admin);
    if existing { return ApproveEnd.AlreadyApproved, copy; }
    row := row.(approvals := row.approvals + [Approval(admin, now)]);
    copy := c.(row := Some(row));
    if |row.approvals| < APPROVALS_NEEDED { return ApproveEnd.Recorded, copy; }
    row := row.(request := row.request.(status := QUEUED));
    row := row.(queue := Some(Job(ticket, WAITING, 0, now, None)));
    copy := Cell(Some(row), c.hist.(closer := Some(p)));
    end := Queued;
  }

  /** The same for rejectWithdraw. */
  method RejectCallback(now: Time, p: Pid, c: Cell) returns (end: RejectEnd, copy: Cell)
    ensures end.Rejected? <==> RejectTx(now, p, c) == Some(copy)
    ensures end.RejectNotFound? <==> c.row.None?
    ensures end.RejectOnlyPending? <==> c.row.Some? && !c.row.value.request.status.PENDING?
    ensures end.RejectExpired? <==> c.row.Some? && c.row.value.request.status.PENDING? && !InTime(c.row.value.request, now)
    ensures end.RejectExpired? ==> copy == c.(row := Some(c.row.value.(request := c.row.value.request.(status := EXPIRED))))
    ensures end.Rejected? ==> copy.row == Some(c.row.value.(request := c.row.value.request.(status := REJECTED)))
    ensures !end.RejectInterrupted?
  {
    copy := c;
    if c.row.None? { return RejectNotFound, copy; }
    var row := c.row.value;
    if !row.request.status.PENDING? { return RejectOnlyPending, copy; }
    if row.request.expiresAt.Some? && row.request.expiresAt.value < now {
      copy := c.(row := Some(row.(request := row.request.(status := EXPIRED))));
      return RejectExpired, copy;
    }
    copy := Cell(Some(row.(request := row.request.(status := REJECTED))), c.hist.(closer := Some(p)));
    end := RejectEnd.Rejected;
  }

  class AdminService {
    const db: Store

    constructor (db: Store)
      ensures this.db == db
    {
      this.db := db;
    }

    /** It commits exactly when the request is PENDING, in time, and not yet approved by this admin; otherwise every
      * table is as before, also where the callback had written EXPIRED. */
    method ApproveTransaction(p: Pid, r: ReqId, admin: nat, op: Op) returns (end: ApproveEnd)
      requires db.Valid() && ProcOf(db.View(), p).Idle?
      modifies db
      ensures db.Valid() && db.trace == old(db.trace) + [Approve(p, r, admin, op)]
      ensures ProcOf(db.View(), p) == if end.Queued? then Noting(r, None, LogQueued, None) else Idle
      ensures end.Recorded? || end.Queued? <==> old(Approvable(db.View(), p, r, admin, op))
      ensures !end.Recorded? && !end.Queued? ==> db.View() == old(db.View())
      ensures end.Interrupted? <==> !op.Ok?
      ensures end.RequestNotFound? <==> op.Ok? && old(r >= |db.cells| || db.cells[r].row.None?)
      ensures end.OnlyPending? <==> op.Ok? && old(r < |db.cells| && db.cells[r].row.Some? && !db.cells[r].row.value.request.status.PENDING?)
      ensures end.Expired? <==>
                op.Ok? && old(r < |db.cells| && db.cells[r].row.Some? && db.cells[r].row.value.request.status.PENDING? && !InTime(db.cells[r].row.value.request, db.now))
      ensures !end.OnlyMultisig?
      ensures end.Recorded? || end.Queued? ==>
                && r < |db.cells| && db.cells[r].row.Some? && old(db.cells)[r].row.Some?
                && db.cells[r].row.value.approvals == old(db.cells)[r].row.value.approvals + [Approval(admin, db.now)]
      ensures end.Recorded? ==> |db.cells[r].row.value.approvals| == 1 && ExitOf(db.cells[r].row.value).Open?
      ensures end.Recorded? ==> db.cells[r].row.value.request == old(db.cells)[r].row.value.request && db.cells[r].row.value.queue == old(db.cells)[r].row.value.queue
      ensures end.Queued? ==>
                && r < |db.cells| && db.cells[r].row.Some? && TwoTimelyApprovals(db.cells[r].row.value)
                && db.cells[r].row.value.request == old(db.cells)[r].row.value.request.(status := QUEUED)
                && db.cells[r].row.value.queue == Some(Job(|old(db.tickets)|, WAITING, 0, db.now, None)) && db.tickets == old(db.tickets) + [r]
    {
      hide Run, Step, TwoTimelyApprovals;
      Extended(db.trace, Approve(p, r, admin, op));
      ApproveSteps(db.View(), p, r, admin, op);
      if !op.Ok? { end := Interrupted; }
      else if r >= |db.cells| { end := RequestNotFound; }
      else {
        var copy;
        end, copy := ApproveCallback(db.now, p, admin, db.cells[r], |db.tickets|);
        ApprovedRow(db.trace, p, r, admin, |db.tickets|);
        PendingIsMultisig(db.trace, r);
        if end.Recorded? {
          db.cells := db.cells[r := copy];
        } else if end.Queued? {
          db.tickets, db.resv := db.tickets + [r], db.resv + [0];
          db.cells, db.procs := db.cells[r := copy], db.procs[p := Noting(r, None, LogQueued, None)];
        }
      }
      db.trace := db.trace + [Approve(p, r, admin, op)];
    }

    /** approveWithdraw: the transaction, and once the request is queued, its audit row. */
    method ApproveWithdraw(p: Pid, r: ReqId, admin: nat, m1: Moment, m2: Moment) returns (end: ApproveEnd)
      requires db.Valid() && ProcOf(db.View(), p).Idle? && NotBy(m1.others, p) && NotBy(m2.others, p)
      modifies db
      ensures db.Valid() && ProcOf(db.View(), p).Idle?
      ensures db.trace == old(db.trace) + m1.others + [Approve(p, r, admin, m1.op)]
                          + (if end.Queued? then m2.others + [Advance(p, m2.op)] else [])
      ensures end.Recorded? || end.Queued? <==> Approvable(Run(Initial, old(db.trace) + m1.others), p, r, admin, m1.op)
      ensures end.Queued? && m2.op.Ok? && r < |db.cells| && db.cells[r].row.Some? ==> LogQueued in db.cells[r].row.value.audit
    {
      hide Run, Step, Approvable;
      db.Others(p, m1.others);
      end := ApproveTransaction(p, r, admin, m1.op);
      if end.Queued? {
        db.Others(p, m2.others);
        var _ := db.Note(p, r, None, LogQueued, None, m2.op);
      }
    }

    method RejectTransaction(p: Pid, r: ReqId, op: Op) returns (end: RejectEnd)
      requires db.Valid() && ProcOf(db.View(), p).Idle?
      modifies db
      ensures db.Valid() && db.trace == old(db.trace) + [Reject(p, r, op)]
      ensures ProcOf(db.View(), p) == if end.Rejected? then Noting(r, None, LogRejected, None) else Idle
      ensures end.Rejected? <==> old(Rejectable(db.View(), p, r, op))
      ensures !end.Rejected? ==> db.View() == old(db.View())
      ensures end.RejectInterrupted? <==> !op.Ok?
      ensures end.RejectNotFound? <==> op.Ok? && old(r >= |db.cells| || db.cells[r].row.None?)
      ensures end.RejectExpired? <==>
                op.Ok? && old(r < |db.cells| && db.cells[r].row.Some? && db.cells[r].row.value.request.status.PENDING? && !InTime(db.cells[r].row.value.request, db.now))
      ensures end.Rejected? ==>
                && r < |db.cells| && db.cells[r].row.Some? && old(db.cells)[r].row.Some? && ExitOf(db.cells[r].row.value) == ByRejection
                && var row := old(db.cells)[r].row.value; db.cells[r].row == Some(row.(request := row.request.(status := REJECTED)))
    {
      Extended(db.trace, Reject(p, r, op));
      RejectEffect(db.View(), p, r, op);
      if !op.Ok? { end := RejectInterrupted; }
      else if r >= |db.cells| { end := RejectNotFound; }
      else {
        var copy;
        end, copy := RejectCallback(db.now, p, db.cells[r]);
        hide Run;
        if end.Rejected? {
          db.cells, db.procs := db.cells[r := copy], db.procs[p := Noting(r, None, LogRejected, None)];
        }
      }
      db.trace := db.trace + [Reject(p, r, op)];
    }

    /** rejectWithdraw: the transaction, and its audit row. */
    method RejectWithdraw(p: Pid, r: ReqId, m1: Moment, m2: Moment) returns (end: RejectEnd)
      requires db.Valid() && ProcOf(db.View(), p).Idle? && NotBy(m1.others, p) && NotBy(m2.others, p)
      modifies db
      ensures db.Valid() && ProcOf(db.View(), p).Idle?
      ensures db.trace == old(db.trace) + m1.others + [Reject(p, r, m1.op)]
                          + (if end.Rejected? then m2.others + [Advance(p, m2.op)] else [])
      ensures end.Rejected? <==> Rejectable(Run(Initial, old(db.trace) + m1.others), p, r, m1.op)
      ensures end.Rejected? && m2.op.Ok? && r < |db.cells| && db.cells[r].row.Some? ==> LogRejected in db.cells[r].row.value.audit
    {
      hide Run, Step, Rejectable;
      db.Others(p, m1.others);
      end := RejectTransaction(p, r, m1.op);
      if end.Rejected? {
        db.Others(p, m2.others);
        var _ := db.Note(p, r, None, LogRejected, None, m2.op);
      }
    }
  }

  lemma ApproveSteps(s: State, p: Pid, r: ReqId, admin: nat, op: Op)
    requires ProcOf(s, p).Idle?
    ensures Step(s, Approve(p, r, admin, op)) == if op.Ok? && r < |s.cells| then ApproveStep(s, p, r, admin) else s
  {
  }

  /** What a committed approval leaves on the request. */
  lemma ApprovedRow(acts: seq<Action>, p: Pid, r: ReqId, admin: nat, ticket: nat)
    requires r < |Run(Initial, acts).cells|
    ensures
      var s := Run(Initial, acts);
      match ApproveTx(s.now, p, admin, s.cells[r], ticket)
      case ApprovalAdded(c) => c.row.Some? && |c.row.value.approvals| == 1 && ExitOf(c.row.value).Open?
      case ApprovedAndQueued(c) => c.row.Some? && TwoTimelyApprovals(c.row.value) && c.row.value.request.status.QUEUED?
      case _ => true
  {
    hide Run;
    CellAt(acts, r);
  }

  lemma PendingIsMultisig(acts: seq<Action>, r: ReqId)
    requires r < |Run(Initial, acts).cells|
    ensures
      var c := Run(Initial, acts).cells[r];
      c.row.Some? && c.row.value.request.status.PENDING? ==> c.row.value.request.walletType.MULTISIG?
  {
    hide Run;
    if Run(Initial, acts).cells[r].row.Some? { QueueRowIffQueued(acts, r); }
  }
}

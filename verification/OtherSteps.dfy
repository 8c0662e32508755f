/** The same for settlement polls, the expiry scheduler, the admin transactions, the reservation, the insertion
  * and the cleanup; and that what a process relies on survives whatever the others guarantee. */
module OtherSteps {
  import opened Domain
  import opened Pipeline
  import opened CellInvariant
  import LocalSteps

  predicate Kept(w: World, now: Time, p: Pid, c: Cell, c': Cell) {
    CellInv(w, now, c') && Guar(p, c, c')
  }

  lemma SettleWriteSafe(w: World, now: Time, p: Pid, c: Cell, snap: Request, verdict: Verdict)
    requires CellInv(w, now, c) && SnapLink(w, snap, c) && SettleHead(w, snap, Got(verdict)) && c.row.Some?
    ensures
      var q := c.row.value.request;
      var meta := snap.meta.(external := Some(snap.meta.external.value.(status := verdict)));
      var q' := match verdict
                case StillPending => q.(meta := meta)
                case IsConfirmed => q.(status := EXECUTED, meta := meta)
                case IsFailed => q.(status := FAILED, meta := meta);
      Kept(w, now, p, c, SetRequest(c, q'))
  {
    hide CellInv, Guar;
    LocalSteps.Balance(w, now, c);
    var q := c.row.value.request;
    var meta := snap.meta.(external := Some(snap.meta.external.value.(status := verdict)));
    match verdict
    case StillPending => LocalSteps.WriteSafe(w, w, now, p, c, SetRequest(c, q.(meta := meta)), None);
    case IsConfirmed => LocalSteps.WriteSafe(w, w, now, p, c, SetRequest(c, q.(status := EXECUTED, meta := meta)), None);
    case IsFailed => LocalSteps.WriteSafe(w, w, now, p, c, SetRequest(c, q.(status := FAILED, meta := meta)), None);
  }

  lemma SettleStepSafe(w: World, now: Time, p: Pid, todo: seq<Snapshot>, sp: SettlePc, c: Cell, op: Op)
    requires todo != [] && CellInv(w, now, c) && SnapLink(w, todo[0].request, c) && SettleHead(w, todo[0].request, sp)
    ensures
      var m := SettleStep(w, todo, sp, c, op);
      && m.world == w && Kept(w, now, p, c, m.cell)
      && (m.proc.Idle? || m.proc == Settling(todo[1..], Asking)
          || (m.proc.Settling? && m.proc.todo == todo && SettleHead(w, todo[0].request, m.proc.sp)))
  {
    hide CellInv, Guar;
    LocalSteps.StopSafe(w, now, p, todo[0].r, c);
    if op.Ok? && c.row.Some? {
      if sp.Got? { SettleWriteSafe(w, now, p, c, todo[0].request, sp.verdict); }
      if sp.Logging? { LocalSteps.AddAuditSafe(w, now, p, todo[0].r, sp.event, c); }
    }
  }

  lemma ExpireWriteSafe(w: World, now: Time, p: Pid, c: Cell)
    requires CellInv(w, now, c) && ExpireLink(now, c) && c.row.Some? && c.row.value.request.status.PENDING?
    ensures
      var c' := Close(SetRequest(c, c.row.value.request.(status := EXPIRED)), p);
      Kept(w, now, p, c, c') && OwesExit(p, LogExpired, c')
  {
  }

  lemma ExpireStepSafe(w: World, now: Time, p: Pid, ids: seq<ReqId>, logging: bool, c: Cell, op: Op)
    requires ids != [] && CellInv(w, now, c) && ExpireLink(now, c) && (logging ==> OwesExit(p, LogExpired, c))
    ensures
      var m := ExpireStep(w, p, ids, logging, c, op);
      && m.world == w && Kept(w, now, p, c, m.cell)
      && (m.proc.Idle? || m.proc == Expiring(ids[1..], false) || (m.proc == Expiring(ids, true) && OwesExit(p, LogExpired, m.cell)))
  {
    hide CellInv, Guar, OwesExit;
    LocalSteps.StopSafe(w, now, p, ids[0], c);
    if op.Ok? && c.row.Some? {
      if logging { LocalSteps.AddAuditSafe(w, now, p, ids[0], LogExpired, c); }
      else if c.row.value.request.status.PENDING? { ExpireWriteSafe(w, now, p, c); }
    }
  }

  lemma ApproveSafe(w: World, now: Time, p: Pid, admin: nat, c: Cell, ticket: nat)
    requires CellInv(w, now, c)
    ensures
      match ApproveTx(now, p, admin, c, ticket)
      case ApprovalAdded(c') => Kept(w, now, p, c, c') && c'.row.Some? && Missing(c) && Missing(c')
      case ApprovedAndQueued(c') =>
        && Kept(w, now, p, c, c') && OwesExit(p, LogQueued, c') && Missing(c)
        && !Missing(c') && c'.row.value.queue.value == NewJob(ticket, now) && c'.row.value.request.retryCount == 0
      case _ => true
  {
    if ApproveTx(now, p, admin, c, ticket).ApprovalAdded? || ApproveTx(now, p, admin, c, ticket).ApprovedAndQueued? {
      var row := c.row.value;
      var more := row.approvals + [Approval(admin, now)];
      assert forall i :: 0 <= i < |row.approvals| ==> more[i] == row.approvals[i];
    }
  }

  lemma RejectSafe(w: World, now: Time, p: Pid, c: Cell)
    requires CellInv(w, now, c)
    ensures
      match RejectTx(now, p, c)
      case None => true
      case Some(c') => Kept(w, now, p, c, c') && OwesExit(p, LogRejected, c')
  {
  }

  lemma ReserveSafe(w: World, now: Time, p: Pid, c: Cell)
    requires CellInv(w, now, c) && !Missing(c) && Reservable(c.row.value.queue.value)
    ensures Kept(w, now, p, c, ReserveCell(c, p)) && WorkerLink(w, p, Claimed, ReserveCell(c, p))
  {
    hide CellInv, Guar;
    LocalSteps.Balance(w, now, c);
    LocalSteps.WriteSafe(w, w, now, p, c, ReserveCell(c, p), None);
  }

  lemma InsertSafe(w: World, now: Time, p: Pid, i: Intent, ticket: nat)
    requires Authorised(i) && (i.wallet.walletType.SSS? ==> SssAccepted(i))
    ensures CellInv(w, now, NewCell(i, p, now, ticket))
    ensures !i.wallet.walletType.MULTISIG? ==> OwesExit(p, LogQueued, NewCell(i, p, now, ticket))
  {
  }

  lemma DropSafe(w: World, now: Time, p: Pid, c: Cell, targets: set<WalletId>)
    requires CellInv(w, now, c) && (OnWallet(c, targets) ==> !InFlight(c.row.value))
    ensures Kept(w, now, p, c, Drop(c, targets))
  {
  }

  // ---------- stability ----------

  lemma CellGrows(w: World, w': World, now: Time, now': Time, c: Cell)
    requires CellInv(w, now, c) && Grows(w, w') && now <= now'
    ensures CellInv(w', now', c)
  {
  }

  lemma WorkerStable(w: World, w': World, p: Pid, q: Pid, pc: WorkerPc, c: Cell, c': Cell)
    requires p != q && WorkerLink(w, q, pc, c) && Guar(p, c, c') && Grows(w, w')
    ensures WorkerLink(w', q, pc, c')
  {
  }

  lemma NoteStable(p: Pid, q: Pid, before: Option<AuditEvent>, last: AuditEvent, reply: Option<Answer>, c: Cell, c': Cell)
    requires p != q && NoteLink(q, before, last, reply, c) && Guar(p, c, c')
    ensures NoteLink(q, before, last, reply, c')
  {
  }

  lemma SnapStable(w: World, w': World, p: Pid, snap: Request, c: Cell, c': Cell)
    requires SnapLink(w, snap, c) && Guar(p, c, c') && Grows(w, w')
    ensures SnapLink(w', snap, c')
  {
  }

  lemma OwesStable(p: Pid, q: Pid, e: AuditEvent, c: Cell, c': Cell)
    requires p != q && OwesExit(q, e, c) && Guar(p, c, c')
    ensures OwesExit(q, e, c')
  {
  }
}

/** What holds of one request in every reachable state, what a process in the middle of its work relies on,
  * and what a step by one process guarantees to all others (rely/guarantee, one request at a time). */
module CellInvariant {
  import opened Domain
  import opened Pipeline
  import PolicyGuardV1

  // ---------- the invariant of one request ----------

  /** The checks that `withdraw` makes before it inserts anything. */
  predicate Authorised(i: Intent) {
    && i.caller == i.wallet.ownerEmail
    && (i.amount >= OTP_REQUIRED_AMOUNT ==> i.otp == Some(true))
    && i.to != i.wallet.address
    && (i.wallet.whitelist != {} ==> i.to in i.wallet.whitelist)
    && (i.wallet.singleTxLimit.Some? ==> i.amount <= i.wallet.singleTxLimit.value)
  }

  predicate Faithful(q: Request, i: Intent) {
    && q.walletId == i.walletId && q.walletType == i.wallet.walletType && q.amount == i.amount && q.to == i.to && q.key == i.key
    && (q.expiresAt.Some? <==> q.walletType.MULTISIG?)
    && (q.meta.signedTx.Some? ==> q.walletType.SSS? && q.meta.signedTx == i.signedTx)
  }

  predicate Known(w: World, e: External, i: Intent) {
    e.id < |w.transfers| && w.transfers[e.id].to == i.to && w.transfers[e.id].amount == i.amount
  }

  /** Every table's part in the life cycle of a request. */
  predicate TwoTables(row: Row) {
    var q := row.request;
    && !q.status.APPROVED?
    && (row.queue.Some? <==> q.status.QUEUED? || q.status.PROCESSING? || q.status.EXECUTED? || q.status.FAILED?)
    && (q.status.PENDING? || q.status.REJECTED? || q.status.EXPIRED? ==> q.walletType.MULTISIG?)
  }

  predicate Counters(q: Request, j: Job, h: History) {
    && j.attemptCount <= 2 && j.attemptCount <= q.retryCount <= j.attemptCount + 1
    && (Reservable(j) || j.status.RESERVED? ==> q.retryCount == j.attemptCount && |h.calls| <= j.attemptCount && h.successes <= h.lateFaults)
    && (!Reservable(j) ==> |h.calls| <= j.attemptCount + 1 && j.workerId.Some?)
    && (j.status.DEAD? ==> q.retryCount == MAX_ATTEMPTS && h.successes <= h.lateFaults)
  }

  /** What an EXECUTED row and the provider's id on a row stand for, whatever fails. */
  predicate Backed(w: World, q: Request, h: History) {
    && (q.meta.external.Some? ==> q.walletType.MPC? && h.successes >= 1 && Known(w, q.meta.external.value, h.intent))
    && (q.status.EXECUTED? ==>
          && h.successes >= 1
          && (q.walletType.SSS? ==> h.intent.signedTx.Some? && Mined(h.intent.signedTx.value, true) in w.mined)
          && (q.walletType.POLICY_GUARD? ==> PolicyGuardV1.Check(q.to, q.amount))
          && (q.walletType.MPC? ==> q.meta.external.Some?))
    && (q.walletType.SSS? ==>
          && h.intent.signedTx.Some?
          && if q.meta.signedTx.Some? then h.successes == 0 && h.lateFaults == 0 else Mined(h.intent.signedTx.value, true) in w.mined)
  }

  function VerdictOn(w: World, e: External): Verdict {
    if e.id < |w.transfers| then MapTransferStatus(w.transfers[e.id].status) else StillPending
  }

  predicate Working(q: Request) {
    q.meta.external.None? && (q.status.QUEUED? || q.status.PROCESSING?)
  }

  /** The stronger facts of a request on which no statement failed after execute() had returned. */
  predicate Quiet(w: World, q: Request, j: Job, h: History) {
    && (Reservable(j) || j.status.RESERVED? ==> Working(q))
    && (j.status.DEAD? ==> q.status.FAILED? && q.meta.external.None?)
    && (j.status.SUCCEEDED? ==> h.successes == 1)
    && (q.meta.external.Some? ==> j.status.RUNNING? || j.status.SUCCEEDED?)
    && (q.status.EXECUTED? ==> j.status.RUNNING? || j.status.SUCCEEDED?)
    && (q.status.EXECUTED? && q.meta.external.Some? ==> VerdictOn(w, q.meta.external.value).IsConfirmed?)
    && (q.status.FAILED? ==>
          if q.meta.external.Some? then VerdictOn(w, q.meta.external.value).IsFailed?
          else h.successes == 0 && q.retryCount == MAX_ATTEMPTS)
  }

  predicate ApprovalsValid(row: Row) {
    && (forall i :: 0 <= i < |row.approvals| ==>
          row.request.expiresAt.Some? && row.approvals[i].at <= row.request.expiresAt.value)
    && (forall i, j :: 0 <= i < j < |row.approvals| ==> row.approvals[i].admin != row.approvals[j].admin)
    && (row.request.status.PENDING? ==> |row.approvals| <= 1)
    && (row.queue.Some? && row.request.walletType.MULTISIG? ==> |row.approvals| == APPROVALS_NEEDED)
  }

  function Exits(row: Row): nat { row.audit[LogQueued] + row.audit[LogRejected] + row.audit[LogExpired] }

  predicate AuditTrue(row: Row, h: History) {
    && Exits(row) <= 1
    && (LogQueued in row.audit ==> row.queue.Some?)
    && (LogRejected in row.audit ==> row.request.status.REJECTED?)
    && (LogExpired in row.audit ==> row.request.status.EXPIRED?)
    && (h.closer.None? <==> row.request.status.PENDING?)
  }

  predicate RowInv(w: World, now: Time, row: Row, h: History) {
    && Faithful(row.request, h.intent)
    && TwoTables(row)
    && ApprovalsValid(row)
    && AuditTrue(row, h)
    && Backed(w, row.request, h)
    && (row.request.status.EXPIRED? ==> Late(row.request, now))
    && (row.queue.Some? ==>
          && Counters(row.request, row.queue.value, h)
          && (h.lateFaults == 0 ==> Quiet(w, row.request, row.queue.value, h)))
    && (row.queue.None? ==> h.calls == [] && h.successes == 0 && row.request.retryCount == 0)
  }

  predicate HistoryInv(h: History) {
    && Authorised(h.intent)
    && (h.intent.wallet.walletType.SSS? ==> SssAccepted(h.intent))
    && |h.calls| <= MAX_ATTEMPTS
    && (forall i :: 0 <= i < |h.calls| ==> h.calls[i] == Call(h.intent.walletId, h.intent.to, h.intent.amount))
    && h.successes <= h.lateFaults + 1
    && (h.successes >= 1 && h.intent.wallet.walletType.POLICY_GUARD? ==> PolicyGuardV1.Check(h.intent.to, h.intent.amount))
    && (forall i :: 0 <= i < |h.answers| ==> h.answers[i].key == h.intent.key)
  }

  predicate CellInv(w: World, now: Time, c: Cell) {
    && HistoryInv(c.hist)
    && (c.row.Some? ==> RowInv(w, now, c.row.value, c.hist))
  }

  // ---------- what a process relies on ----------

  predicate Holds(p: Pid, c: Cell) {
    c.row.Some? && c.row.value.queue.Some? && !Reservable(c.row.value.queue.value) && c.row.value.queue.value.workerId == Some(p)
  }

  predicate Current(snap: Request, q: Request, i: Intent) {
    Faithful(snap, i) && snap.retryCount == q.retryCount
  }

  /** The job is the poll's own, its attempt is not counted yet, and the request is untouched by any result. */
  predicate Attempting(p: Pid, c: Cell) {
    && Holds(p, c)
    && var q, j, h := c.row.value.request, c.row.value.queue.value, c.hist;
       j.status.RUNNING? && q.retryCount == j.attemptCount && h.successes <= h.lateFaults && (h.lateFaults == 0 ==> Working(q))
  }

  predicate HasResult(w: World, c: Cell, result: Result) {
    var t, i := c.hist.intent.wallet.walletType, c.hist.intent;
    && c.hist.successes >= 1
    && match result
       case OnChain =>
         && !t.MPC?
         && (t.SSS? ==> i.signedTx.Some? && Mined(i.signedTx.value, true) in w.mined)
         && (t.POLICY_GUARD? ==> PolicyGuardV1.Check(i.to, i.amount))
       case ExternalPending(id) => t.MPC? && Known(w, External(id, StillPending), i)
  }

  predicate SssStage(c: Cell, snap: Request, meta: Meta) {
    && c.hist.intent.wallet.walletType.SSS? && c.hist.intent.signedTx.Some?
    && meta.signedTx == c.hist.intent.signedTx && meta.external.None?
  }

  /** In the catch block: the row may be gone once the job had been marked SUCCEEDED. */
  predicate Catching(p: Pid, c: Cell) {
    c.row.Some? ==>
      && Holds(p, c)
      && var q, j, h := c.row.value.request, c.row.value.queue.value, c.hist;
         && (j.status.RUNNING? || j.status.SUCCEEDED?)
         && h.successes <= h.lateFaults
         && (h.lateFaults == 0 ==> j.status.RUNNING? && q.meta.external.None?)
  }

  predicate WorkerLink(w: World, p: Pid, pc: WorkerPc, c: Cell) {
    match pc
    case Claimed | Loaded => Holds(p, c) && c.row.value.queue.value.status.RESERVED?
    case Running => Attempting(p, c) && |c.hist.calls| <= c.row.value.queue.value.attemptCount
    case Checked(snap) =>
      Attempting(p, c) && |c.hist.calls| <= c.row.value.queue.value.attemptCount && Current(snap, c.row.value.request, c.hist.intent)
    case Started(snap) =>
      Attempting(p, c) && |c.hist.calls| <= c.row.value.queue.value.attemptCount && Current(snap, c.row.value.request, c.hist.intent)
    case Ready(snap) =>
      Attempting(p, c) && |c.hist.calls| <= c.row.value.queue.value.attemptCount && Current(snap, c.row.value.request, c.hist.intent)
    case Calling(snap) => Attempting(p, c) && Current(snap, c.row.value.request, c.hist.intent)
    case SssSigned(snap, meta) => Attempting(p, c) && Current(snap, c.row.value.request, c.hist.intent) && SssStage(c, snap, meta)
    case SssSent(snap, meta) => Attempting(p, c) && Current(snap, c.row.value.request, c.hist.intent) && SssStage(c, snap, meta)
    case SssMined(snap, meta) =>
      && Attempting(p, c) && Current(snap, c.row.value.request, c.hist.intent) && SssStage(c, snap, meta)
      && Mined(c.hist.intent.signedTx.value, true) in w.mined
    case SssStripped(snap) =>
      && Attempting(p, c) && Current(snap, c.row.value.request, c.hist.intent)
      && c.hist.intent.wallet.walletType.SSS? && c.hist.intent.signedTx.Some? && Mined(c.hist.intent.signedTx.value, true) in w.mined
      && c.row.value.request.meta == Meta(None, None)
    case Returned(snap, result) =>
      && Holds(p, c) && c.row.value.queue.value.status.RUNNING?
      && Current(snap, c.row.value.request, c.hist.intent) && snap.retryCount == c.row.value.queue.value.attemptCount
      && HasResult(w, c, result) && (c.hist.lateFaults == 0 ==> Working(c.row.value.request))
    case Recorded(snap, result) =>
      && Holds(p, c) && c.row.value.queue.value.status.RUNNING?
      && Current(snap, c.row.value.request, c.hist.intent) && snap.retryCount == c.row.value.queue.value.attemptCount
      && HasResult(w, c, result)
    case Succeeded(snap, event) =>
      && !event.LogQueued? && !event.LogRejected? && !event.LogExpired?
      && (c.row.Some? ==>
            && Holds(p, c) && c.row.value.queue.value.status.SUCCEEDED?
            && Current(snap, c.row.value.request, c.hist.intent) && snap.retryCount == c.row.value.queue.value.attemptCount)
    case Caught(snap) =>
      && Catching(p, c)
      && (c.row.Some? ==>
            && Current(snap, c.row.value.request, c.hist.intent) && snap.retryCount == c.row.value.queue.value.attemptCount
            && (c.hist.lateFaults == 0 ==> Working(c.row.value.request)))
    case Counted(snap) =>
      && Catching(p, c)
      && (c.row.Some? ==> CountedLink(c, snap))
    case Reread(snap, attempts) =>
      && Catching(p, c)
      && (c.row.Some? ==> CountedLink(c, snap) && attempts == c.row.value.queue.value.attemptCount)
      && snap.retryCount + 1 < MAX_ATTEMPTS
  }

  predicate CountedLink(c: Cell, snap: Request)
    requires !Missing(c)
  {
    var q, j := c.row.value.request, c.row.value.queue.value;
    && q.retryCount == snap.retryCount + 1 == j.attemptCount + 1
    && (c.hist.lateFaults == 0 ==> if snap.retryCount + 1 >= MAX_ATTEMPTS then q.status.FAILED? else Working(q))
  }

  predicate IsExit(e: AuditEvent) { e.LogQueued? || e.LogRejected? || e.LogExpired? }

  /** An exit from PENDING that is still to be logged happened, and this process made it. */
  predicate OwesExit(p: Pid, e: AuditEvent, c: Cell) {
    && c.hist.closer == Some(p)
    && (c.row.Some? ==>
          && Exits(c.row.value) == 0
          && (e.LogQueued? ==> c.row.value.queue.Some?)
          && (e.LogRejected? ==> c.row.value.request.status.REJECTED?)
          && (e.LogExpired? ==> c.row.value.request.status.EXPIRED?))
  }

  predicate NoteLink(p: Pid, before: Option<AuditEvent>, last: AuditEvent, reply: Option<Answer>, c: Cell) {
    && (before.Some? ==> !IsExit(before.value))
    && (IsExit(last) ==> OwesExit(p, last, c))
    && (reply.Some? ==> reply.value.key == c.hist.intent.key)
  }

  /** What survives of a settlement poll's row snapshot, however stale. */
  predicate SnapLink(w: World, snap: Request, c: Cell) {
    && Faithful(snap, c.hist.intent) && snap.walletType.MPC? && snap.meta.external.Some?
    && Known(w, snap.meta.external.value, c.hist.intent) && c.hist.successes >= 1
    && (c.row.Some? ==>
          && c.row.value.queue.Some?
          && c.row.value.request.meta.external.Some?
          && (c.hist.lateFaults == 0 ==> c.row.value.request.meta.external.value.id == snap.meta.external.value.id))
  }

  predicate SettleHead(w: World, snap: Request, sp: SettlePc) {
    match sp
    case Asking => true
    case Got(verdict) => snap.meta.external.Some? && (verdict.StillPending? || VerdictOn(w, snap.meta.external.value) == verdict)
    case Logging(event) => !IsExit(event)
  }

  predicate ExpireLink(now: Time, c: Cell) {
    c.row.Some? ==> Late(c.row.value.request, now)
  }

  // ---------- what a step guarantees ----------

  /** The outside world only moves forward. */
  predicate Grows(w: World, w': World) {
    && |w.transfers| <= |w'.transfers|
    && (forall i :: 0 <= i < |w.transfers| ==>
          && w'.transfers[i].to == w.transfers[i].to && w'.transfers[i].amount == w.transfers[i].amount
          && (Final(w.transfers[i].status) ==> w'.transfers[i].status == w.transfers[i].status))
    && w.mined <= w'.mined
  }

  predicate SameOrder(q: Request, q': Request) {
    && q'.walletId == q.walletId && q'.walletType == q.walletType && q'.amount == q.amount && q'.to == q.to
    && q'.key == q.key && q'.expiresAt == q.expiresAt
  }

  /** No status that is final changes, and nothing goes back to PENDING. */
  predicate FinalKept(q: Request, q': Request, quiet: bool) {
    && (q.status.REJECTED? || q.status.EXPIRED? ==> q'.status == q.status)
    && (quiet && (q.status.EXECUTED? || q.status.FAILED?) ==> q'.status == q.status)
    && (q'.status.PENDING? ==> q.status.PENDING?)
  }

  /** In one step PENDING is left by one of its three exits only. */
  predicate StatusKept(q: Request, q': Request, quiet: bool) {
    && FinalKept(q, q', quiet)
    && (q.status.PENDING? ==> q'.status.PENDING? || q'.status.QUEUED? || q'.status.REJECTED? || q'.status.EXPIRED?)
  }

  /** Another process's job, with everything its poll relies on. */
  predicate Untouched(row: Row, row': Row, h: History, h': History) {
    && row'.queue == row.queue && row'.request.retryCount == row.request.retryCount
    && h'.calls == h.calls && h'.successes == h.successes && h'.lateFaults == h.lateFaults
    && (row.request.meta.external.None? ==> row'.request.meta == row.request.meta && row'.request.status == row.request.status)
  }

  predicate RowGuar(p: Pid, row: Row, row': Row, h: History, h': History) {
    && SameOrder(row.request, row'.request)
    && StatusKept(row.request, row'.request, h'.lateFaults == 0)
    && (row.queue.Some? ==> row'.queue.Some? && row'.queue.value.ticket == row.queue.value.ticket && row'.approvals == row.approvals)
    && (row.queue.Some? && !Reservable(row.queue.value) && row.queue.value.workerId != Some(p) ==> Untouched(row, row', h, h'))
    && (row.request.meta.external.Some? ==>
          && row'.request.meta.external.Some?
          && (h'.lateFaults == 0 ==> row'.request.meta.external.value.id == row.request.meta.external.value.id))
    && (h.closer.Some? ==> h'.closer == h.closer)
    && (h.closer.Some? && h.closer != Some(p) ==> Exits(row') == Exits(row))
  }

  predicate Guar(p: Pid, c: Cell, c': Cell) {
    && c'.hist.intent == c.hist.intent
    && c.hist.lateFaults <= c'.hist.lateFaults && c.hist.successes <= c'.hist.successes && |c.hist.calls| <= |c'.hist.calls|
    && (c.hist.closer.Some? ==> c'.hist.closer == c.hist.closer)
    && c.hist.crashes <= c'.hist.crashes
    && (c.row.None? ==> c'.row.None?)
    && (c.row.Some? && c'.row.None? ==> !InFlight(c.row.value))
    && (c.row.Some? && c'.row.Some? ==> RowGuar(p, c.row.value, c'.row.value, c.hist, c'.hist))
  }

  predicate ProcLink(w: World, now: Time, p: Pid, proc: Proc, cells: seq<Cell>) {
    match proc
    case Idle => true
    case Worker(r, pc) => r < |cells| && WorkerLink(w, p, pc, cells[r])
    case Noting(r, before, last, reply) => r < |cells| && NoteLink(p, before, last, reply, cells[r])
    case Settling(todo, sp) =>
      && (forall i :: 0 <= i < |todo| ==> todo[i].r < |cells| && SnapLink(w, todo[i].request, cells[todo[i].r]))
      && (if todo == [] then sp.Asking? else SettleHead(w, todo[0].request, sp))
    case Expiring(ids, logging) =>
      && (forall i :: 0 <= i < |ids| ==> ids[i] < |cells| && ExpireLink(now, cells[ids[i]]))
      && (if ids == [] then !logging else logging ==> OwesExit(p, LogExpired, cells[ids[0]]))
    case Looking(i) => Authorised(i)
    case Inserting(i) => Authorised(i) && (i.wallet.walletType.SSS? ==> SssAccepted(i))
    case Conflicted(i) => Authorised(i) && (i.wallet.walletType.SSS? ==> SssAccepted(i))
  }
}

/** The withdrawal pipeline as a transition system. One step is one database statement, one database
  * transaction, or one move of the outside world; any number of processes interleave. A step that is not
  * enabled leaves the state alone. */
module Pipeline {
  import opened Domain
  import PolicyGuardV1

  const OTP_REQUIRED_AMOUNT: Wei := 10_000_000_000_000_000
  const SEPOLIA: nat := 11155111
  const MULTISIG_LIFETIME: Time := 600_000
  const RETRY_DELAY: Time := 30_000
  const MAX_ATTEMPTS: nat := 3
  const APPROVALS_NEEDED: nat := 2
  const SETTLEMENT_BATCH: nat := 10
  const PROTECTED_EMAIL := "test@test.com"

  /** How the next statement of a process ends: as written, by throwing, or with the process dying before it. */
  datatype Op = Ok | Fault | Die

  datatype Result = OnChain | ExternalPending(id: nat)

  /** The next statement of a worker poll. `snap` is the request row loaded after markRunning. */
  datatype WorkerPc =
    | Claimed                                        // read the reserved job back
    | Loaded                                         // markRunning
    | Running                                        // load the request
    | Checked(snap: Request)                         // status PROCESSING
    | Started(snap: Request)                         // audit EXECUTION_STARTED
    | Ready(snap: Request)                           // enter the try block, call execute()
    | Calling(snap: Request)                         // execute() at work
    | SssSigned(snap: Request, meta: Meta)           // SSS: broadcast the stored transaction
    | SssSent(snap: Request, meta: Meta)             // SSS: wait for the receipt
    | SssMined(snap: Request, meta: Meta)            // SSS: strip the transaction from the metadata
    | SssStripped(snap: Request)                     // SSS: audit SSS_SIGNED_TX_BROADCASTED
    | Returned(snap: Request, result: Result)        // write the outcome to the request
    | Recorded(snap: Request, result: Result)        // markSucceeded
    | Succeeded(snap: Request, event: AuditEvent)    // audit the outcome
    | Caught(snap: Request)                          // catch block: write retryCount, or FAILED
    | Counted(snap: Request)                         // markDead, or markRetry's read
    | Reread(snap: Request, attempts: nat)           // markRetry's write

  datatype SettlePc = Asking | Got(verdict: Verdict) | Logging(event: AuditEvent)

  datatype Snapshot = Snapshot(r: ReqId, request: Request)

  datatype Proc =
    | Idle
    | Worker(r: ReqId, pc: WorkerPc)
    | Noting(r: ReqId, before: Option<AuditEvent>, last: AuditEvent, reply: Option<Answer>)  // audit rows still to append
    | Settling(todo: seq<Snapshot>, sp: SettlePc)
    | Expiring(ids: seq<ReqId>, logging: bool)
    | Looking(intent: Intent)      // withdraw: look the idempotency key up
    | Inserting(intent: Intent)    // withdraw: insert the request
    | Conflicted(intent: Intent)   // withdraw: the key exists already, find its request

  datatype State = State(
    now: Time, wallets: map<WalletId, Wallet>, nextWallet: WalletId, cells: seq<Cell>,
    tickets: seq<ReqId>,   // the request of every queue row ever inserted, in insertion order
    resv: seq<nat>,        // how often each of those queue rows was reserved
    procs: map<Pid, Proc>, world: World)

  datatype Action =
    | Advance(p: Pid, op: Op)
    | Reserve(p: Pid)
    | Settle(p: Pid, found: seq<ReqId>)
    | Expire(p: Pid, found: seq<ReqId>)
    | Approve(p: Pid, r: ReqId, admin: nat, op: Op)
    | Reject(p: Pid, r: ReqId, op: Op)
    | Withdraw(p: Pid, intent: Intent)
    | CreateWallet(wallet: Wallet)
    | Configure(walletId: WalletId, whitelist: set<Address>, limit: Option<Wei>)
    | Cleanup(targets: set<WalletId>)
    | Tick(elapsed: Time)
    | NewTransfer(to: Address, amount: Wei)
    | Progress(id: nat, status: TransferStatus)
    | Broadcast(tx: Tx)
    | Mine(tx: Tx, ok: bool)

  const Initial: State := State(0, map[], 0, [], [], [], map[], World([], {}, []))

  function ProcOf(s: State, p: Pid): Proc {
    if p in s.procs then s.procs[p] else Idle
  }

  // ---------- one statement of a process, on one request ----------

  datatype Moved = Moved(proc: Proc, cell: Cell, world: World)

  function Abandon(c: Cell): Cell { c.(hist := c.hist.(crashes := c.hist.crashes + 1)) }

  function SetRequest(c: Cell, q: Request): Cell
    requires c.row.Some?
  { c.(row := Some(c.row.value.(request := q))) }

  function SetJob(c: Cell, j: Job): Cell
    requires c.row.Some?
  { c.(row := Some(c.row.value.(queue := Some(j)))) }

  function AddAudit(c: Cell, e: AuditEvent): Cell
    requires c.row.Some?
  { c.(row := Some(c.row.value.(audit := c.row.value.audit + multiset{e}))) }

  /** The part of poll() that its catch block covers. */
  predicate InTry(pc: WorkerPc) {
    pc.Ready? || pc.Calling? || pc.SssSigned? || pc.SssSent? || pc.SssMined? || pc.SssStripped? || AfterReturn(pc)
  }

  predicate AfterReturn(pc: WorkerPc) {
    pc.Returned? || pc.Recorded? || pc.Succeeded?
  }

  predicate Missing(c: Cell) { c.row.None? || c.row.value.queue.None? }

  function WorkStep(w: World, now: Time, r: ReqId, pc: WorkerPc, c: Cell, op: Op): Moved {
    if op.Die? then Moved(Idle, Abandon(c), w)
    else if Missing(c) then Moved(if InTry(pc) then Worker(r, Caught(pc.snap)) else Idle, c, w)
    else if op.Fault? then
      if AfterReturn(pc) then Moved(Worker(r, Caught(pc.snap)), c.(hist := c.hist.(lateFaults := c.hist.lateFaults + 1)), w)
      else if InTry(pc) then Moved(Worker(r, Caught(pc.snap)), c, w)
      else Moved(Idle, Abandon(c), w)
    else if InTry(pc) then TryStep(w, r, pc, c)
    else PlainStep(w, now, r, pc, c)
  }

  function PlainStep(w: World, now: Time, r: ReqId, pc: WorkerPc, c: Cell): Moved
    requires !Missing(c) && !InTry(pc)
  {
    var q, j := c.row.value.request, c.row.value.queue.value;
    match pc
    case Claimed => Moved(Worker(r, Loaded), c, w)
    case Loaded => Moved(Worker(r, Running), SetJob(c, j.(status := RUNNING)), w)
    case Running => Moved(Worker(r, Checked(q)), c, w)
    case Checked(snap) => Moved(Worker(r, Started(snap)), SetRequest(c, q.(status := PROCESSING)), w)
    case Started(snap) => Moved(Worker(r, Ready(snap)), AddAudit(c, LogStarted), w)
    case Caught(snap) =>
      if snap.retryCount + 1 >= MAX_ATTEMPTS
      then Moved(Worker(r, Counted(snap)), SetRequest(c, q.(status := FAILED, retryCount := snap.retryCount + 1)), w)
      else Moved(Worker(r, Counted(snap)), SetRequest(c, q.(retryCount := snap.retryCount + 1)), w)
    case Counted(snap) =>
      if snap.retryCount + 1 >= MAX_ATTEMPTS
      then Moved(Noting(r, None, LogFailed, None), SetJob(c, j.(status := DEAD)), w)
      else Moved(Worker(r, Reread(snap, j.attemptCount)), c, w)
    case Reread(snap, attempts) =>
      Moved(Noting(r, None, LogRetry, None),
            SetJob(c, j.(status := RETRY_WAIT, attemptCount := attempts + 1, availableAt := now + RETRY_DELAY)), w)
  }

  function Return(w: World, r: ReqId, snap: Request, c: Cell, result: Result): Moved {
    Moved(Worker(r, Returned(snap, result)), c.(hist := c.hist.(successes := c.hist.successes + 1)), w)
  }

  function TryStep(w: World, r: ReqId, pc: WorkerPc, c: Cell): Moved
    requires !Missing(c) && InTry(pc)
  {
    var q, j := c.row.value.request, c.row.value.queue.value;
    match pc
    case Ready(snap) =>
      Moved(Worker(r, Calling(snap)), c.(hist := c.hist.(calls := c.hist.calls + [Call(snap.walletId, snap.to, snap.amount)])), w)
    case Calling(snap) => Execute(w, r, snap, c)
    case SssSigned(snap, meta) =>
      Moved(Worker(r, SssSent(snap, meta)), c, if meta.signedTx.Some? then w.(mempool := w.mempool + {meta.signedTx.value}) else w)
    case SssSent(snap, meta) =>
      if meta.signedTx.None? || Mined(meta.signedTx.value, false) in w.mined then Moved(Worker(r, Caught(snap)), c, w)
      else if Mined(meta.signedTx.value, true) in w.mined then Moved(Worker(r, SssMined(snap, meta)), c, w)
      else Moved(Worker(r, pc), c, w)  // still waiting
    case SssMined(snap, meta) => Moved(Worker(r, SssStripped(snap)), SetRequest(c, q.(meta := meta.(signedTx := None))), w)
    case SssStripped(snap) => Return(w, r, snap, AddAudit(c, LogSssBroadcasted), OnChain)
    case Returned(snap, result) =>
      (match result
       case OnChain => Moved(Worker(r, Recorded(snap, result)), SetRequest(c, q.(status := EXECUTED)), w)
       case ExternalPending(id) =>
         var meta := snap.meta.(external := Some(External(id, StillPending)));
         Moved(Worker(r, Recorded(snap, result)), SetRequest(c, q.(status := PROCESSING, meta := meta)), w))
    case Recorded(snap, result) =>
      Moved(Worker(r, Succeeded(snap, if result.OnChain? then LogConfirmed else LogStarted)), SetJob(c, j.(status := SUCCEEDED)), w)
    case Succeeded(snap, event) =>
      Moved(if event.LogConfirmed? && snap.walletType.KMS? then Worker(r, Succeeded(snap, LogKmsBroadcasted)) else Idle, AddAudit(c, event), w)
  }

  /** ExecutionRouterService.execute, by wallet type, when it does not throw. */
  function Execute(w: World, r: ReqId, snap: Request, c: Cell): Moved
    requires !Missing(c)
  {
    match snap.walletType
    case BACKEND_SEC | MULTISIG | KMS => Return(w, r, snap, c, OnChain)
    case POLICY_GUARD =>
      if PolicyGuardV1.Check(snap.to, snap.amount) then Return(w, r, snap, c, OnChain) else Moved(Worker(r, Caught(snap)), c, w)
    case MPC =>
      Return(w.(transfers := w.transfers + [Transfer(snap.to, snap.amount, Pending)]), r, snap, c, ExternalPending(|w.transfers|))
    case SSS =>
      var meta := c.row.value.request.meta;
      if meta.signedTx.None? then Moved(Worker(r, Caught(snap)), c, w) else Moved(Worker(r, SssSigned(snap, meta)), c, w)
  }

  function NoteStep(w: World, r: ReqId, before: Option<AuditEvent>, last: AuditEvent, reply: Option<Answer>, c: Cell, op: Op): Moved {
    if !op.Ok? || c.row.None? then Moved(Idle, c, w)
    else if before.Some? then Moved(Noting(r, None, last, reply), AddAudit(c, before.value), w)
    else
      var c' := AddAudit(c, last);
      Moved(Idle, if reply.Some? then c'.(hist := c'.hist.(answers := c'.hist.answers + [reply.value])) else c', w)
  }

  function SettleStep(w: World, todo: seq<Snapshot>, sp: SettlePc, c: Cell, op: Op): Moved
    requires todo != []
  {
    var meta := todo[0].request.meta;
    if !op.Ok? then Moved(Idle, c, w)
    else match sp
    case Asking =>
      if meta.external.Some? && meta.external.value.id < |w.transfers|
      then Moved(Settling(todo, Got(MapTransferStatus(w.transfers[meta.external.value.id].status))), c, w)
      else Moved(Settling(todo[1..], Asking), c, w)
    case Got(verdict) =>
      if c.row.None? || meta.external.None? then Moved(Idle, c, w)
      else
        var q := c.row.value.request;
        var meta' := meta.(external := Some(meta.external.value.(status := verdict)));
        (match verdict
         case StillPending => Moved(Settling(todo[1..], Asking), SetRequest(c, q.(meta := meta')), w)
         case IsConfirmed => Moved(Settling(todo, Logging(LogMpcConfirmed)), SetRequest(c, q.(status := EXECUTED, meta := meta')), w)
         case IsFailed => Moved(Settling(todo, Logging(LogMpcFailed)), SetRequest(c, q.(status := FAILED, meta := meta')), w))
    case Logging(event) =>
      if c.row.None? then Moved(Idle, c, w) else Moved(Settling(todo[1..], Asking), AddAudit(c, event), w)
  }

  function ExpireStep(w: World, p: Pid, ids: seq<ReqId>, logging: bool, c: Cell, op: Op): Moved
    requires ids != []
  {
    if !op.Ok? then Moved(Idle, c, w)
    else if logging then
      if c.row.None? then Moved(Idle, c, w) else Moved(Expiring(ids[1..], false), AddAudit(c, LogExpired), w)
    else if c.row.Some? && c.row.value.request.status.PENDING? then
      Moved(Expiring(ids, true), Close(SetRequest(c, c.row.value.request.(status := EXPIRED)), p), w)
    else Moved(Expiring(ids[1..], false), c, w)
  }

  function Close(c: Cell, p: Pid): Cell { c.(hist := c.hist.(closer := Some(p))) }

  // ---------- admin transactions ----------

  datatype Approved = NotFound | NotPending | Lapsed | NotMultisig | AlreadyApproved | ApprovalAdded(cell: Cell) | ApprovedAndQueued(cell: Cell)

  predicate HasApproved(approvals: seq<Approval>, admin: nat) {
    exists i :: 0 <= i < |approvals| && approvals[i].admin == admin
  }

  predicate Late(q: Request, now: Time) { q.expiresAt.Some? && q.expiresAt.value < now }

  function ApproveTx(now: Time, p: Pid, admin: nat, c: Cell, ticket: nat): Approved {
    if c.row.None? then NotFound
    else
      var row := c.row.value;
      if !row.request.status.PENDING? then NotPending
      else if Late(row.request, now) then Lapsed
      else if !row.request.walletType.MULTISIG? then NotMultisig
      else if HasApproved(row.approvals, admin) then AlreadyApproved
      else
        var row' := row.(approvals := row.approvals + [Approval(admin, now)]);
        if |row'.approvals| < APPROVALS_NEEDED then ApprovalAdded(c.(row := Some(row')))
        else ApprovedAndQueued(Close(c.(row := Some(row'.(request := row'.request.(status := QUEUED), queue := Some(NewJob(ticket, now))))), p))
  }

  function NewJob(ticket: nat, now: Time): Job { Job(ticket, WAITING, 0, now, None) }

  function RejectTx(now: Time, p: Pid, c: Cell): Option<Cell> {
    if c.row.None? || !c.row.value.request.status.PENDING? || Late(c.row.value.request, now) then None
    else Some(Close(SetRequest(c, c.row.value.request.(status := REJECTED)), p))
  }

  // ---------- withdraw ----------

  datatype Policy = Allowed | SelfTransfer | NotWhitelisted | OverLimit

  function ValidateWithdrawPolicy(wallet: Wallet, to: Address, amount: Wei): Policy {
    if to == wallet.address then SelfTransfer
    else if wallet.whitelist != {} && to !in wallet.whitelist then NotWhitelisted
    else if wallet.singleTxLimit.Some? && amount > wallet.singleTxLimit.value then OverLimit
    else Allowed
  }

  predicate OtpPasses(i: Intent) {
    i.amount >= OTP_REQUIRED_AMOUNT ==> i.otp == Some(true)
  }

  predicate SssAccepted(i: Intent) {
    && i.signedTx.Some?
    && var tx := i.signedTx.value;
       tx.from == i.wallet.address && tx.to == i.to && tx.value == i.amount && tx.chainId == SEPOLIA && tx.nonce == i.rpcNonce
  }

  predicate HasKey(c: Cell, key: string) { c.row.Some? && c.row.value.request.key == Some(key) }

  /** The live request with this key, optionally on one wallet only. */
  function FindKey(cells: seq<Cell>, key: string, on: Option<WalletId>): (found: Option<ReqId>)
    ensures found.Some? ==> found.value < |cells| && HasKey(cells[found.value], key)
                            && (on.Some? ==> cells[found.value].row.value.request.walletId == on.value)
    ensures found.None? ==> forall r :: 0 <= r < |cells| && HasKey(cells[r], key)
                                        ==> on.Some? && cells[r].row.value.request.walletId != on.value
  {
    if |cells| == 0 then None
    else
      var r := |cells| - 1;
      if HasKey(cells[r], key) && (on.Some? ==> cells[r].row.value.request.walletId == on.value) then Some(r)
      else FindKey(cells[..r], key, on)
  }

  function NewCell(i: Intent, p: Pid, now: Time, ticket: nat): Cell {
    var t := i.wallet.walletType;
    var meta := Meta(if t.SSS? then i.signedTx else None, None);
    var h := History(i, [], 0, 0, 0, if t.MULTISIG? then None else Some(p), []);
    if t.MULTISIG? then
      Cell(Some(Row(Request(i.walletId, t, i.amount, i.to, PENDING, Some(now + MULTISIG_LIFETIME), 0, i.key, meta), None, [], multiset{})), h)
    else
      Cell(Some(Row(Request(i.walletId, t, i.amount, i.to, QUEUED, None, 0, i.key, meta), Some(NewJob(ticket, now)), [], multiset{})), h)
  }

  function WithdrawStep(s: State, p: Pid, proc: Proc, op: Op): State
    requires proc.Looking? || proc.Inserting? || proc.Conflicted?
  {
    var i := proc.intent;
    if !op.Ok? then Become(s, p, Idle)
    else match proc
    case Looking(_) =>
      (match if Keyed(i) then FindKey(s.cells, i.key.value, Some(i.walletId)) else None
       case Some(r) => Reply(s, p, r, i)
       case None => Become(s, p, if i.wallet.walletType.SSS? && !SssAccepted(i) then Idle else Inserting(i)))
    case Inserting(_) =>
      if i.walletId !in s.wallets then Become(s, p, Idle)
      else if i.key.Some? && FindKey(s.cells, i.key.value, None).Some?
      then Become(s, p, if Keyed(i) then Conflicted(i) else Idle)
      else Insert(s, p, i)
    case Conflicted(_) =>
      (match if i.key.Some? then FindKey(s.cells, i.key.value, None) else None
       case Some(r) => Reply(s, p, r, i)
       case None => Become(s, p, Idle))
  }

  predicate Keyed(i: Intent) { i.key.Some? && i.key.value != "" }

  function Become(s: State, p: Pid, proc: Proc): State { s.(procs := s.procs[p := proc]) }

  function Reply(s: State, p: Pid, r: ReqId, i: Intent): State
    requires r < |s.cells|
  {
    var c := s.cells[r];
    Become(s, p, Idle).(cells := s.cells[r := c.(hist := c.hist.(answers := c.hist.answers + [Answer(i.key, i.walletId)]))])
  }

  function Insert(s: State, p: Pid, i: Intent): State {
    var r, t, reply := |s.cells|, i.wallet.walletType, Some(Answer(i.key, i.walletId));
    var s' := s.(cells := s.cells + [NewCell(i, p, s.now, |s.tickets|)]);
    if t.MULTISIG? then Become(s', p, Noting(r, None, LogCreated, reply))
    else Become(s'.(tickets := s.tickets + [r], resv := s.resv + [0]), p,
                Noting(r, Some(if t.SSS? then LogSssValidated else LogCreated), LogQueued, reply))
  }

  // ---------- the queue ----------

  predicate Eligible(c: Cell, now: Time) {
    && !Missing(c)
    && var j := c.row.value.queue.value;
       j.status.WAITING? || (j.status.RETRY_WAIT? && j.availableAt <= now)
  }

  function Ticket(c: Cell): nat
    requires !Missing(c)
  { c.row.value.queue.value.ticket }

  /** The eligible job that was inserted first. */
  function Oldest(cells: seq<Cell>, now: Time): (found: Option<ReqId>)
    ensures found.Some? ==> found.value < |cells| && Eligible(cells[found.value], now)
    ensures found.Some? ==> forall r :: 0 <= r < |cells| && Eligible(cells[r], now) ==> Ticket(cells[found.value]) <= Ticket(cells[r])
    ensures found.None? ==> forall r :: 0 <= r < |cells| ==> !Eligible(cells[r], now)
  {
    if |cells| == 0 then None
    else
      var r := |cells| - 1;
      var best := Oldest(cells[..r], now);
      if Eligible(cells[r], now) && (best.None? || Ticket(cells[r]) < Ticket(cells[best.value])) then Some(r) else best
  }

  function ReserveCell(c: Cell, p: Pid): Cell
    requires !Missing(c)
  {
    SetJob(c, c.row.value.queue.value.(status := RESERVED, workerId := Some(p)))
  }

  function ReserveNext(s: State, p: Pid): State {
    match Oldest(s.cells, s.now)
    case None => s
    case Some(r) =>
      var t := Ticket(s.cells[r]);
      if t < |s.resv|
      then Become(s, p, Worker(r, Claimed)).(cells := s.cells[r := ReserveCell(s.cells[r], p)], resv := s.resv[t := s.resv[t] + 1])
      else s
  }

  // ---------- cleanup ----------

  predicate InFlight(row: Row) {
    || row.request.status.PENDING? || row.request.status.APPROVED? || row.request.status.QUEUED? || row.request.status.PROCESSING?
    || (row.queue.Some? && !row.queue.value.status.SUCCEEDED? && !row.queue.value.status.DEAD?)
  }

  predicate OnWallet(c: Cell, targets: set<WalletId>) { c.row.Some? && c.row.value.request.walletId in targets }

  predicate CleanupAllowed(s: State, targets: set<WalletId>) {
    && targets <= s.wallets.Keys
    && (forall w :: w in targets ==> s.wallets[w].ownerEmail != PROTECTED_EMAIL)
    && (forall r :: 0 <= r < |s.cells| && OnWallet(s.cells[r], targets) ==> !InFlight(s.cells[r].row.value))
  }

  function Drop(c: Cell, targets: set<WalletId>): Cell {
    if OnWallet(c, targets) then c.(row := None) else c
  }

  function DropAll(s: State, targets: set<WalletId>): State {
    s.(wallets := s.wallets - targets, cells := seq(|s.cells|, r requires 0 <= r < |s.cells| => Drop(s.cells[r], targets)))
  }

  // ---------- the outside world ----------

  predicate Final(status: TransferStatus) { !MapTransferStatus(status).StillPending? }

  /** The account nonce: how many of the sender's transactions are on the chain. */
  function NonceOf(mined: seq<Mined>, from: Address): nat {
    if |mined| == 0 then 0
    else NonceOf(mined[..|mined| - 1], from) + if mined[|mined| - 1].tx.from == from then 1 else 0
  }

  // ---------- the transition function ----------

  predicate SettleFinds(c: Cell) {
    c.row.Some? && c.row.value.request.status.PROCESSING? && c.row.value.request.walletType.MPC? && c.row.value.request.meta.external.Some?
  }

  predicate ExpireFinds(c: Cell, now: Time) {
    c.row.Some? && c.row.value.request.status.PENDING? && c.row.value.request.walletType.MULTISIG? && Late(c.row.value.request, now)
  }

  function Apply(s: State, p: Pid, r: ReqId, m: Moved): State
    requires r < |s.cells|
  {
    Become(s, p, m.proc).(cells := s.cells[r := m.cell], world := m.world)
  }

  function AdvanceStep(s: State, p: Pid, op: Op): State {
    var proc := ProcOf(s, p);
    match proc
    case Idle => s
    case Worker(r, pc) => if r < |s.cells| then Apply(s, p, r, WorkStep(s.world, s.now, r, pc, s.cells[r], op)) else s
    case Noting(r, before, last, reply) =>
      if r < |s.cells| then Apply(s, p, r, NoteStep(s.world, r, before, last, reply, s.cells[r], op)) else s
    case Settling(todo, sp) =>
      if todo == [] then Become(s, p, Idle)
      else if todo[0].r < |s.cells| then Apply(s, p, todo[0].r, SettleStep(s.world, todo, sp, s.cells[todo[0].r], op))
      else s
    case Expiring(ids, logging) =>
      if ids == [] then Become(s, p, Idle)
      else if ids[0] < |s.cells| then Apply(s, p, ids[0], ExpireStep(s.world, p, ids, logging, s.cells[ids[0]], op))
      else s
    case Looking(_) => WithdrawStep(s, p, proc, op)
    case Inserting(_) => WithdrawStep(s, p, proc, op)
    case Conflicted(_) => WithdrawStep(s, p, proc, op)
  }

  function ApproveStep(s: State, p: Pid, r: ReqId, admin: nat): State
    requires r < |s.cells|
  {
    match ApproveTx(s.now, p, admin, s.cells[r], |s.tickets|)
    case ApprovalAdded(c) => s.(cells := s.cells[r := c])
    case ApprovedAndQueued(c) =>
      Become(s, p, Noting(r, None, LogQueued, None)).(cells := s.cells[r := c], tickets := s.tickets + [r], resv := s.resv + [0])
    case _ => s   // thrown, and the transaction rolled back
  }

  function RejectStep(s: State, p: Pid, r: ReqId): State
    requires r < |s.cells|
  {
    match RejectTx(s.now, p, s.cells[r])
    case None => s
    case Some(c) => Become(s, p, Noting(r, None, LogRejected, None)).(cells := s.cells[r := c])
  }

  /** Starts of calls and runs, by a process that is idle. */
  function StartStep(s: State, a: Action): State
    requires a.Reserve? || a.Settle? || a.Expire? || a.Approve? || a.Reject? || a.Withdraw?
  {
    if !ProcOf(s, a.p).Idle? then s
    else match a
    case Reserve(p) => ReserveNext(s, p)
    case Settle(p, found) =>
      if |found| <= SETTLEMENT_BATCH && forall i :: 0 <= i < |found| ==> found[i] < |s.cells| && SettleFinds(s.cells[found[i]])
      then Become(s, p, Settling(seq(|found|, i requires 0 <= i < |found| => Snapshot(found[i], s.cells[found[i]].row.value.request)), Asking))
      else s
    case Expire(p, found) =>
      if forall i :: 0 <= i < |found| ==> found[i] < |s.cells| && ExpireFinds(s.cells[found[i]], s.now)
      then Become(s, p, Expiring(found, false))
      else s
    case Approve(p, r, admin, op) => if op.Ok? && r < |s.cells| then ApproveStep(s, p, r, admin) else s
    case Reject(p, r, op) => if op.Ok? && r < |s.cells| then RejectStep(s, p, r) else s
    case Withdraw(p, i) =>
      if && i.walletId in s.wallets && i.wallet == s.wallets[i.walletId] && i.wallet.ownerEmail == i.caller
         && OtpPasses(i) && ValidateWithdrawPolicy(i.wallet, i.to, i.amount).Allowed?
      then Become(s, p, Looking(i))
      else s
  }

  function WorldStep(s: State, a: Action): State
    requires a.Tick? || a.NewTransfer? || a.Progress? || a.Broadcast? || a.Mine?
  {
    var w := s.world;
    match a
    case Tick(d) => s.(now := s.now + d)
    case NewTransfer(to, amount) => s.(world := w.(transfers := w.transfers + [Transfer(to, amount, Pending)]))
    case Progress(id, status) =>
      if id < |w.transfers| && !Final(w.transfers[id].status)
      then s.(world := w.(transfers := w.transfers[id := w.transfers[id].(status := status)]))
      else s
    case Broadcast(tx) => s.(world := w.(mempool := w.mempool + {tx}))
    case Mine(tx, ok) =>
      if tx in w.mempool && tx.nonce == NonceOf(w.mined, tx.from) then s.(world := w.(mined := w.mined + [Mined(tx, ok)])) else s
  }

  function Step(s: State, a: Action): State {
    match a
    case Advance(p, op) => AdvanceStep(s, p, op)
    case CreateWallet(wallet) => s.(wallets := s.wallets[s.nextWallet := wallet], nextWallet := s.nextWallet + 1)
    case Configure(id, whitelist, limit) =>
      if id in s.wallets then s.(wallets := s.wallets[id := s.wallets[id].(whitelist := whitelist, singleTxLimit := limit)]) else s
    case Cleanup(targets) => if CleanupAllowed(s, targets) then DropAll(s, targets) else s
    case Tick(_) => WorldStep(s, a)
    case NewTransfer(_, _) => WorldStep(s, a)
    case Progress(_, _) => WorldStep(s, a)
    case Broadcast(_) => WorldStep(s, a)
    case Mine(_, _) => WorldStep(s, a)
    case _ => StartStep(s, a)
  }

  function Run(s: State, acts: seq<Action>): State
    decreases |acts|
  {
    if |acts| == 0 then s else Run(Step(s, acts[0]), acts[1..])
  }

  /** The same from the other end. */
  lemma {:induction false} RunLast(s: State, acts: seq<Action>)
    requires |acts| > 0
    ensures Run(s, acts) == Step(Run(s, acts[..|acts| - 1]), acts[|acts| - 1])
    decreases |acts|
  {
    hide Step;
    if |acts| > 1 {
      RunLast(Step(s, acts[0]), acts[1..]);
      assert acts[1..][..|acts| - 2] == acts[..|acts| - 1][1..];
    }
  }

  lemma RunSnoc(s: State, acts: seq<Action>, a: Action)
    ensures Run(s, acts + [a]) == Step(Run(s, acts), a)
  {
    hide Step, Run;
    RunLast(s, acts + [a]);
    assert (acts + [a])[..|acts|] == acts;
  }
}

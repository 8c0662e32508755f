/** The entities of the custody service: database rows, the external transfer provider, the chain,
  * and the history that the proofs keep beside them. */
module Domain {

  datatype Option<+T> = None | Some(value: T)

  type Pid = nat        // a running process: one worker poll, one HTTP call, one scheduler run, ...
  type ReqId = nat      // primary key of WithdrawRequest; never reused
  type WalletId = nat
  type Address = nat    // an address compared without regard to letter case
  type Wei = nat
  type Time = nat       // milliseconds

  datatype WalletType = MULTISIG | SSS | KMS | BACKEND_SEC | MPC | POLICY_GUARD

  datatype Status = PENDING | APPROVED | QUEUED | PROCESSING | EXECUTED | REJECTED | FAILED | EXPIRED

  datatype QueueStatus = WAITING | RESERVED | RUNNING | RETRY_WAIT | SUCCEEDED | DEAD  // WAITING is the queue's own 'PENDING'

  /** What the transfer provider reports, and what the service makes of it. */
  datatype TransferStatus = Pending | AwaitingApproval | Broadcasted | Confirmed | Failed | Rejected | Cancelled | Unknown

  datatype Verdict = StillPending | IsConfirmed | IsFailed

  datatype Wallet = Wallet(ownerEmail: string, walletType: WalletType, address: Address, whitelist: set<Address>, singleTxLimit: Option<Wei>)

  /** A signed transaction; `rest` stands for its fee fields and signature. */
  datatype Tx = Tx(from: Address, to: Address, value: Wei, chainId: nat, nonce: nat, rest: nat)

  datatype External = External(id: nat, status: Verdict)

  datatype Meta = Meta(signedTx: Option<Tx>, external: Option<External>)

  datatype Request = Request(
    walletId: WalletId, walletType: WalletType, amount: Wei, to: Address, status: Status,
    expiresAt: Option<Time>, retryCount: nat, key: Option<string>, meta: Meta)

  /** A WithdrawalQueue row. `ticket` is its place in insertion order, which `createdAt` follows. */
  datatype Job = Job(ticket: nat, status: QueueStatus, attemptCount: nat, availableAt: Time, workerId: Option<Pid>)

  datatype Approval = Approval(admin: nat, at: Time)

  datatype AuditEvent =
    | LogCreated | LogSssValidated | LogQueued | LogRejected | LogExpired | LogStarted | LogConfirmed | LogKmsBroadcasted
    | LogSssBroadcasted | LogRetry | LogFailed | LogMpcConfirmed | LogMpcFailed

  /** A request together with the rows of the other tables that reference it: its queue row, of which the
    * schema allows one, and its approvals and audit rows. Deleting the request cascades to all of them. */
  datatype Row = Row(request: Request, queue: Option<Job>, approvals: seq<Approval>, audit: multiset<AuditEvent>)

  /** What the caller of `withdraw` asked for, with the wallet row that the checks were made on.
    * `otp` is None when no code was sent, else whether the code was right; `key` is already trimmed. */
  datatype Intent = Intent(
    caller: string, walletId: WalletId, wallet: Wallet, amount: Wei, to: Address, otp: Option<bool>,
    signedTx: Option<Tx>, rpcNonce: nat, key: Option<string>)

  datatype Call = Call(walletId: WalletId, to: Address, amount: Wei)

  datatype Answer = Answer(key: Option<string>, walletId: WalletId)

  /** What happened to one request so far; no code reads it.
    * calls: executions started; successes: executions that returned a result; lateFaults: statements that threw
    * between such a return and the end of the worker's try block; crashes: polls that stopped while they held its job;
    * closer: the process that took the request out of PENDING; answers: responses of `withdraw` naming the request. */
  datatype History = History(
    intent: Intent, calls: seq<Call>, successes: nat, lateFaults: nat, crashes: nat, closer: Option<Pid>, answers: seq<Answer>)

  /** Everything about one request id; the row is gone after a cleanup, the history stays. */
  datatype Cell = Cell(row: Option<Row>, hist: History)

  datatype Transfer = Transfer(to: Address, amount: Wei, status: TransferStatus)

  datatype Mined = Mined(tx: Tx, ok: bool)

  /** The world outside the database: provider transfers by id, the mempool, and the chain's transactions in order. */
  datatype World = World(transfers: seq<Transfer>, mempool: set<Tx>, mined: seq<Mined>)

  function MapTransferStatus(status: TransferStatus): Verdict {
    match status
    case Pending | AwaitingApproval | Broadcasted => StillPending
    case Confirmed => IsConfirmed
    case Failed | Rejected | Cancelled => IsFailed
    case Unknown => StillPending
  }

  predicate Reservable(job: Job) {
    job.status.WAITING? || job.status.RETRY_WAIT?
  }
}

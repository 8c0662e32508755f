/** How often a withdrawal is executed, with what, and how it ends: over every run, with any number of workers,
  * settlement polls, admins, schedulers and cleanups, and with faults and crashes anywhere. */
module ExecutionTheorems {
  import opened Domain
  import opened Pipeline
  import opened CellInvariant
  import opened LocalSteps
  import opened RunInvariant
  import opened StepInvariant
  import opened Guarantees
  import PolicyGuardV1

  // ---------- counting what happens in a run ----------

  datatype Mark = Execution | Success | LateFault | Crash

  predicate WorksOn(s: State, a: Action, r: ReqId) {
    a.Advance? && HeldBy(s, a.p, r)
  }

  /** Whether a step starts an execution of request r, ends one with a result, fails after one, or stops a poll on it. */
  predicate Marks(s: State, a: Action, r: ReqId, k: Mark) {
    && WorksOn(s, a, r) && r < |s.cells|
    && var pc, proc' := ProcOf(s, a.p).pc, ProcOf(Step(s, a), a.p);
       match k
       case Execution => pc.Ready? && proc'.Worker? && proc'.pc.Calling?
       case Success => !pc.Returned? && proc'.Worker? && proc'.pc.Returned?
       case LateFault => AfterReturn(pc) && a.op.Fault? && !Missing(s.cells[r])
       case Crash => a.op.Die? || (a.op.Fault? && !InTry(pc) && !Missing(s.cells[r]))
  }

  function Count(acts: seq<Action>, r: ReqId, k: Mark): nat {
    if |acts| == 0 then 0
    else Count(acts[..|acts| - 1], r, k) + if Marks(Run(Initial, acts[..|acts| - 1]), acts[|acts| - 1], r, k) then 1 else 0
  }

  function Tally(h: History, k: Mark): nat {
    match k
    case Execution => |h.calls|
    case Success => h.successes
    case LateFault => h.lateFaults
    case Crash => h.crashes
  }

  function TallyOf(s: State, r: ReqId, k: Mark): nat {
    if r < |s.cells| then Tally(s.cells[r].hist, k) else 0
  }

  lemma StepTally(s: State, a: Action, r: ReqId, k: Mark)
    ensures TallyOf(Step(s, a), r, k) == TallyOf(s, r, k) + if Marks(s, a, r, k) then 1 else 0
  {
    hide AdvanceStep, StartStep, Marks, TallyOf;
    if WorksOn(s, a, r) && r < |s.cells| { WorkTally(s, a, r, k); }
    else {
      assert !Marks(s, a, r, k) by { NoMark(s, a, r, k); }
      match a
      case Advance(p, op) => AdvanceTally(s, p, op, r, k);
      case Cleanup(_) => OtherTally(s, a, r, k);
      case CreateWallet(_) => OtherTally(s, a, r, k);
      case Configure(_, _, _) => OtherTally(s, a, r, k);
      case Tick(_) => OtherTally(s, a, r, k);
      case NewTransfer(_, _) => OtherTally(s, a, r, k);
      case Progress(_, _) => OtherTally(s, a, r, k);
      case Broadcast(_) => OtherTally(s, a, r, k);
      case Mine(_, _) => OtherTally(s, a, r, k);
      case _ => StartTally(s, a, r, k);
    }
  }

  lemma NoMark(s: State, a: Action, r: ReqId, k: Mark)
    requires !WorksOn(s, a, r) || r >= |s.cells|
    ensures !Marks(s, a, r, k)
  {
  }

  lemma AdvanceTally(s: State, p: Pid, op: Op, r: ReqId, k: Mark)
    requires !WorksOn(s, Advance(p, op), r) || r >= |s.cells|
    ensures TallyOf(AdvanceStep(s, p, op), r, k) == TallyOf(s, r, k)
  {
  }

  lemma StartTally(s: State, a: Action, r: ReqId, k: Mark)
    requires a.Reserve? || a.Settle? || a.Expire? || a.Approve? || a.Reject? || a.Withdraw?
    ensures TallyOf(StartStep(s, a), r, k) == TallyOf(s, r, k)
  {
  }

  lemma OtherTally(s: State, a: Action, r: ReqId, k: Mark)
    requires !a.Advance? && !(a.Reserve? || a.Settle? || a.Expire? || a.Approve? || a.Reject? || a.Withdraw?)
    ensures TallyOf(Step(s, a), r, k) == TallyOf(s, r, k)
  {
  }

  lemma WorkTally(s: State, a: Action, r: ReqId, k: Mark)
    requires WorksOn(s, a, r) && r < |s.cells|
    ensures TallyOf(Step(s, a), r, k) == TallyOf(s, r, k) + if Marks(s, a, r, k) then 1 else 0
  {
  }

  /** The history kept on a request counts exactly what the run did to it. */
  lemma {:induction false} CountIsTally(acts: seq<Action>, r: ReqId, k: Mark)
    ensures Count(acts, r, k) == TallyOf(Run(Initial, acts), r, k)
  {
    hide Marks, Step;
    if |acts| > 0 {
      RunLast(Initial, acts);
      CountIsTally(acts[..|acts| - 1], r, k);
      StepTally(Run(Initial, acts[..|acts| - 1]), acts[|acts| - 1], r, k);
    }
  }

  // ---------- retries ----------

  lemma CellAt(acts: seq<Action>, r: ReqId)
    requires r < |Run(Initial, acts).cells|
    ensures CellInv(Run(Initial, acts).world, Run(Initial, acts).now, Run(Initial, acts).cells[r])
  {
    Reachable(acts);
    InvParts(Run(Initial, acts));
  }

  /** However the run goes, a request is executed at most three times. */
  lemma AtMostThreeExecutions(acts: seq<Action>, r: ReqId)
    ensures Count(acts, r, Execution) <= 3
  {
    CountIsTally(acts, r, Execution);
    if r < |Run(Initial, acts).cells| { CellAt(acts, r); }
  }

  /** The two retry counters never drift apart by more than the attempt in progress, and agree whenever the job can be taken. */
  lemma RetryCounters(acts: seq<Action>, r: ReqId)
    requires r < |Run(Initial, acts).cells| && !Missing(Run(Initial, acts).cells[r])
    ensures
      var q, j := Run(Initial, acts).cells[r].row.value.request, Run(Initial, acts).cells[r].row.value.queue.value;
      && j.attemptCount <= q.retryCount <= j.attemptCount + 1
      && (Reservable(j) ==> q.retryCount == j.attemptCount <= 2)
      && (j.status.DEAD? ==> q.retryCount == 3)
  {
    CellAt(acts, r);
  }

  lemma OwnerNamed(s: State, r: ReqId, p: Pid)
    requires ProcsInv(s) && HeldBy(s, p, r) && r < |s.cells| && s.cells[r].row.Some?
    ensures Holds(p, s.cells[r])
  {
    assert ProcLink(s.world, s.now, p, s.procs[p], s.cells);
  }

  /** The row snapshot that a poll decides its retry on is still the row's own count when the poll uses it. */
  lemma SnapshotCurrent(acts: seq<Action>, r: ReqId, p: Pid)
    requires HeldBy(Run(Initial, acts), p, r) && r < |Run(Initial, acts).cells| && Run(Initial, acts).cells[r].row.Some?
    requires ProcOf(Run(Initial, acts), p).pc.Caught?
    ensures
      var row, snap := Run(Initial, acts).cells[r].row.value, ProcOf(Run(Initial, acts), p).pc.snap;
      && row.queue.Some? && snap.retryCount == row.request.retryCount == row.queue.value.attemptCount
      && snap.walletId == row.request.walletId && snap.amount == row.request.amount && snap.to == row.request.to
  {
    hide CellInv, WorkerLink;
    var s := Run(Initial, acts);
    Reachable(acts);
    InvParts(s);
    assert ProcLink(s.world, s.now, p, s.procs[p], s.cells);
    CellAt(acts, r);
    CaughtCurrent(s.world, s.now, p, ProcOf(s, p).pc.snap, s.cells[r]);
  }

  lemma CaughtCurrent(w: World, now: Time, p: Pid, snap: Request, c: Cell)
    requires CellInv(w, now, c) && WorkerLink(w, p, Caught(snap), c) && c.row.Some?
    ensures !Missing(c) && snap.retryCount == c.row.value.request.retryCount == c.row.value.queue.value.attemptCount
    ensures SameOrder(c.row.value.request, snap.(expiresAt := c.row.value.request.expiresAt))
  {
  }

  // ---------- success ----------

  /** Every second success was paid for by a statement that failed after execute() had returned. */
  lemma SuccessesBounded(acts: seq<Action>, r: ReqId)
    ensures Count(acts, r, Success) <= 1 + Count(acts, r, LateFault)
  {
    CountIsTally(acts, r, Success);
    CountIsTally(acts, r, LateFault);
    if r < |Run(Initial, acts).cells| { CellAt(acts, r); }
  }

  lemma ExecutedOnce(acts: seq<Action>, r: ReqId)
    requires Count(acts, r, LateFault) == 0
    requires r < |Run(Initial, acts).cells| && Run(Initial, acts).cells[r].row.Some?
    requires Run(Initial, acts).cells[r].row.value.request.status.EXECUTED?
    ensures Count(acts, r, Success) == 1
    ensures
      var row := Run(Initial, acts).cells[r].row.value;
      row.queue.Some? && (row.queue.value.status.RUNNING? || row.queue.value.status.SUCCEEDED?)
  {
    CountIsTally(acts, r, Success);
    CountIsTally(acts, r, LateFault);
    CellAt(acts, r);
  }

  predicate IsFinal(status: Status) { status.EXECUTED? || status.FAILED? || status.REJECTED? || status.EXPIRED? }

  /** Final statuses stay, in spite of the writes by id alone: REJECTED and EXPIRED always, EXECUTED and FAILED
    * as long as no statement on this request failed after a result. */
  lemma FinalStays(acts: seq<Action>, more: seq<Action>, r: ReqId)
    requires r < |Run(Initial, acts).cells|
    ensures r < |Run(Initial, acts + more).cells|
    ensures
      var c, c' := Run(Initial, acts).cells[r], Run(Initial, acts + more).cells[r];
      c.row.Some? && c'.row.Some? && IsFinal(c.row.value.request.status)
      && (c.row.value.request.status.REJECTED? || c.row.value.request.status.EXPIRED? || Count(acts + more, r, LateFault) == 0)
      ==> c'.row.value.request.status == c.row.value.request.status
  {
    Reachable(acts);
    RunSplit(Initial, acts, more);
    RunGuards(Run(Initial, acts), more, r);
    CountIsTally(acts + more, r, LateFault);
  }

  /** A request that the provider took over ends as the provider's own final verdict says. */
  lemma SettledAsProviderSays(acts: seq<Action>, r: ReqId)
    requires Count(acts, r, LateFault) == 0
    requires r < |Run(Initial, acts).cells| && Run(Initial, acts).cells[r].row.Some?
    requires Run(Initial, acts).cells[r].row.value.request.meta.external.Some?
    ensures
      var s := Run(Initial, acts);
      var q := s.cells[r].row.value.request;
      && q.meta.external.value.id < |s.world.transfers|
      && var t := s.world.transfers[q.meta.external.value.id];
         && t.to == q.to && t.amount == q.amount
         && (q.status.EXECUTED? ==> t.status.Confirmed?)
         && (q.status.FAILED? ==> t.status in {TransferStatus.Failed, TransferStatus.Rejected, Cancelled})
         && (q.status.EXECUTED? || q.status.FAILED? || q.status.PROCESSING? || q.status.QUEUED?)
  {
    CountIsTally(acts, r, LateFault);
    CellAt(acts, r);
  }

  // ---------- what is executed ----------

  /** Every execution is for the wallet, recipient and amount that the caller gave, and that passed the checks. */
  lemma ExecutesTheOrder(acts: seq<Action>, a: Action, r: ReqId)
    requires Marks(Run(Initial, acts), a, r, Execution)
    ensures
      var s, s' := Run(Initial, acts), Run(Initial, acts + [a]);
      && r < |s.cells| && r < |s'.cells| && s.cells[r].row.Some?
      && var i, q, calls := s.cells[r].hist.intent, s.cells[r].row.value.request, s'.cells[r].hist.calls;
         && calls == s.cells[r].hist.calls + [Call(i.walletId, i.to, i.amount)]
         && q.walletId == i.walletId && q.to == i.to && q.amount == i.amount && q.walletType == i.wallet.walletType
         && Authorised(i)
  {
    var s := Run(Initial, acts);
    Reachable(acts);
    InvParts(s);
    assert ProcLink(s.world, s.now, a.p, s.procs[a.p], s.cells);
    CellAt(acts, r);
    RunSnoc(Initial, acts, a);
    CallWritten(s, a, r);
  }

  lemma CallWritten(s: State, a: Action, r: ReqId)
    requires Marks(s, a, r, Execution)
    ensures r < |Step(s, a).cells|
    ensures
      var snap := ProcOf(s, a.p).pc.snap;
      Step(s, a).cells[r].hist.calls == s.cells[r].hist.calls + [Call(snap.walletId, snap.to, snap.amount)]
  {
  }

  /** What the V1 guard lets through. */
  predicate WithinV1(to: Address, amount: Wei) { to != 0 && 0 < amount <= 1_000_000_000_000_000 }

  /** With the V1 guard behind the vault, an order to address zero, of nothing, or of more than 0.001 ether never
    * succeeds, however often it is tried. */
  lemma GuardDecides(acts: seq<Action>, r: ReqId)
    requires r < |Run(Initial, acts).cells| && Run(Initial, acts).cells[r].hist.intent.wallet.walletType.POLICY_GUARD?
    requires !WithinV1(Run(Initial, acts).cells[r].hist.intent.to, Run(Initial, acts).cells[r].hist.intent.amount)
    ensures Count(acts, r, Success) == 0
    ensures Run(Initial, acts).cells[r].row.Some? ==> !Run(Initial, acts).cells[r].row.value.request.status.EXECUTED?
  {
    CountIsTally(acts, r, Success);
    CellAt(acts, r);
  }

  // ---------- SSS ----------

  lemma {:induction false} NonceGrows(mined: seq<Mined>, i: nat, j: nat)
    requires i < j <= |mined|
    ensures NonceOf(mined[..j], mined[i].tx.from) > NonceOf(mined[..i], mined[i].tx.from)
  {
    assert mined[..j][..j - 1] == mined[..j - 1];
    if i < j - 1 { NonceGrows(mined, i, j - 1); }
  }

  /** The chain carries at most one transaction per sender and nonce. */
  lemma OnePerNonce(acts: seq<Action>, i: nat, j: nat)
    requires i < j < |Run(Initial, acts).world.mined|
    ensures
      var mined := Run(Initial, acts).world.mined;
      mined[i].tx.from == mined[j].tx.from ==> mined[i].tx.nonce < mined[j].tx.nonce
  {
    Reachable(acts);
    InvParts(Run(Initial, acts));
    NonceGrows(Run(Initial, acts).world.mined, i, j);
  }

  /** What the worker broadcasts for an SSS request is the transaction validated at creation, which moves the
    * row's amount from the wallet to the row's recipient. */
  lemma BroadcastsTheOrder(acts: seq<Action>, p: Pid, r: ReqId)
    requires HeldBy(Run(Initial, acts), p, r) && ProcOf(Run(Initial, acts), p).pc.SssSigned?
    ensures
      var s := Run(Initial, acts);
      && r < |s.cells| && s.cells[r].row.Some? && ProcOf(s, p).pc.meta.signedTx.Some?
      && var tx, i, q := ProcOf(s, p).pc.meta.signedTx.value, s.cells[r].hist.intent, s.cells[r].row.value.request;
         && i.signedTx == Some(tx)
         && tx.from == i.wallet.address && tx.to == q.to && tx.value == q.amount && tx.chainId == 11155111 && tx.nonce == i.rpcNonce
  {
    var s := Run(Initial, acts);
    Reachable(acts);
    InvParts(s);
    assert ProcLink(s.world, s.now, p, s.procs[p], s.cells);
    CellAt(acts, r);
  }

  /** An SSS request is EXECUTED only when its own transaction took effect on the chain. */
  lemma SssExecutedMeansMined(acts: seq<Action>, r: ReqId)
    requires r < |Run(Initial, acts).cells| && Run(Initial, acts).cells[r].row.Some?
    requires Run(Initial, acts).cells[r].row.value.request.walletType.SSS?
    requires Run(Initial, acts).cells[r].row.value.request.status.EXECUTED?
    ensures
      var s := Run(Initial, acts);
      var i, q := s.cells[r].hist.intent, s.cells[r].row.value.request;
      && SssAccepted(i) && Mined(i.signedTx.value, true) in s.world.mined
      && i.signedTx.value.to == q.to && i.signedTx.value.value == q.amount
  {
    CellAt(acts, r);
  }
}

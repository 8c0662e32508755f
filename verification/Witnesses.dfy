/** Runs that show where a guarantee ends: each is a concrete sequence of actions from the empty system. */
module Witnesses {
  import opened Domain
  import opened Pipeline
  import opened ExecutionTheorems

  lemma Then(acts: seq<Action>, a: Action)
    ensures Run(Initial, acts + [a]) == Step(Run(Initial, acts), a)
  {
    RunSnoc(Initial, acts, a);
  }

  /** One wallet, one request, one process. */
  function One(now: Time, wallet: Wallet, cell: Cell, reserved: nat, proc: Proc, world: World): State {
    State(now, map[0 := wallet], 1, [cell], [0], [reserved], map[0 := proc], world)
  }

  const W0: World := World([], {}, [])
  const SIGNED: Tx := Tx(7, 9, 100, SEPOLIA, 0, 0)

  function WalletOf(t: WalletType): Wallet { Wallet("user@example.com", t, 7, {}, None) }

  function IntentOf(t: WalletType): Intent {
    Intent("user@example.com", 0, WalletOf(t), 100, 9, None, if t.SSS? then Some(SIGNED) else None, 0, None)
  }

  function RequestOf(t: WalletType, status: Status, retries: nat, meta: Meta): Request {
    Request(0, t, 100, 9, status, None, retries, None, meta)
  }

  function MetaOf(t: WalletType): Meta { Meta(if t.SSS? then Some(SIGNED) else None, None) }

  function First(t: WalletType): AuditEvent { if t.SSS? then LogSssValidated else LogCreated }

  /** A wallet, and a withdraw call up to the insertion of its request. */
  lemma Inserted(t: WalletType) returns (acts: seq<Action>)
    requires t.BACKEND_SEC? || t.SSS?
    ensures Run(Initial, acts) == One(0, WalletOf(t), NewCell(IntentOf(t), 0, 0, 0), 0, Noting(0, Some(First(t)), LogQueued, Some(Answer(None, 0))), W0)
  {
    var start: seq<Action> := [];
    assert Run(Initial, start) == Initial;
    hide Run;
    Then(start, CreateWallet(WalletOf(t)));
    acts := start + [CreateWallet(WalletOf(t))];
    var s1 := State(0, map[0 := WalletOf(t)], 1, [], [], [], map[], W0);
    assert Run(Initial, acts) == s1;
    Then(acts, Withdraw(0, IntentOf(t)));
    acts := acts + [Withdraw(0, IntentOf(t))];
    assert Run(Initial, acts) == s1.(procs := map[0 := Looking(IntentOf(t))]);
    acts := Looked(t, acts, s1);
    Then(acts, Advance(0, Ok));
    acts := acts + [Advance(0, Ok)];
  }

  lemma Looked(t: WalletType, acts0: seq<Action>, s1: State) returns (acts: seq<Action>)
    requires t.BACKEND_SEC? || t.SSS?
    requires Run(Initial, acts0) == s1.(procs := map[0 := Looking(IntentOf(t))])
    ensures Run(Initial, acts) == s1.(procs := map[0 := Inserting(IntentOf(t))])
  {
    hide Run;
    Then(acts0, Advance(0, Ok));
    acts := acts0 + [Advance(0, Ok)];
  }

  /** A queued request, after its two audit rows. */
  lemma Queued(t: WalletType) returns (acts: seq<Action>, cell: Cell)
    requires t.BACKEND_SEC? || t.SSS?
    ensures Run(Initial, acts) == One(0, WalletOf(t), cell, 0, Idle, W0)
    ensures cell.row.Some? && cell.row.value.request == RequestOf(t, QUEUED, 0, MetaOf(t))
    ensures cell.row.value.queue == Some(Job(0, WAITING, 0, 0, None))
    ensures cell.hist.intent == IntentOf(t) && cell.hist.calls == [] && cell.hist.successes == 0 && cell.hist.lateFaults == 0
  {
    hide Run;
    acts := Inserted(t);
    var c := AddAudit(NewCell(IntentOf(t), 0, 0, 0), First(t));
    Then(acts, Advance(0, Ok));
    acts := acts + [Advance(0, Ok)];
    assert Run(Initial, acts) == One(0, WalletOf(t), c, 0, Noting(0, None, LogQueued, Some(Answer(None, 0))), W0);
    Then(acts, Advance(0, Ok));
    acts := acts + [Advance(0, Ok)];
    cell := Run(Initial, acts).cells[0];
  }

  /** A poll takes the job and loads the request. */
  lemma Loads(acts0: seq<Action>, now: Time, wallet: Wallet, cell0: Cell, n: nat, world: World) returns (acts: seq<Action>, cell: Cell, snap: Request)
    requires Run(Initial, acts0) == One(now, wallet, cell0, n, Idle, world)
    requires !Missing(cell0) && Eligible(cell0, now) && Ticket(cell0) == 0
    ensures acts0 <= acts
    ensures snap == cell0.row.value.request
    ensures cell == SetJob(cell0, cell0.row.value.queue.value.(status := RUNNING, workerId := Some(0)))
    ensures Run(Initial, acts) == One(now, wallet, cell, n + 1, Worker(0, Checked(snap)), world)
  {
    acts, cell := Reserved(acts0, now, wallet, cell0, n, world);
    hide Run, Step, Eligible, Oldest;
    acts, cell := Go(acts, now, wallet, cell, n + 1, Claimed, world);
    acts, cell := Go(acts, now, wallet, cell, n + 1, Loaded, world);
    acts, cell := Go(acts, now, wallet, cell, n + 1, Running, world);
    snap := cell0.row.value.request;
  }

  lemma Reserved(acts0: seq<Action>, now: Time, wallet: Wallet, cell0: Cell, n: nat, world: World) returns (acts: seq<Action>, cell: Cell)
    requires Run(Initial, acts0) == One(now, wallet, cell0, n, Idle, world)
    requires !Missing(cell0) && Eligible(cell0, now) && Ticket(cell0) == 0
    ensures acts == acts0 + [Reserve(0)] && cell == ReserveCell(cell0, 0)
    ensures Run(Initial, acts) == One(now, wallet, cell, n + 1, Worker(0, Claimed), world)
  {
    hide Run;
    assert Oldest(Run(Initial, acts0).cells, now) == Some(0);
    Then(acts0, Reserve(0));
    acts := acts0 + [Reserve(0)];
    cell := ReserveCell(cell0, 0);
  }

  /** A poll takes the job and gets as far as the executor call. */
  lemma Taken(acts0: seq<Action>, now: Time, wallet: Wallet, cell0: Cell, n: nat, world: World) returns (acts: seq<Action>, cell: Cell, snap: Request)
    requires Run(Initial, acts0) == One(now, wallet, cell0, n, Idle, world)
    requires !Missing(cell0) && Eligible(cell0, now) && Ticket(cell0) == 0
    ensures acts0 <= acts
    ensures Run(Initial, acts) == One(now, wallet, cell, n + 1, Worker(0, Calling(snap)), world)
    ensures snap == cell0.row.value.request
    ensures cell.row.Some? && cell.row.value.request == snap.(status := PROCESSING)
    ensures cell.row.value.queue == Some(cell0.row.value.queue.value.(status := RUNNING, workerId := Some(0)))
    ensures cell.hist == cell0.hist.(calls := cell0.hist.calls + [Call(snap.walletId, snap.to, snap.amount)])
  {
    hide Run, Step, Eligible;
    acts, cell, snap := Loads(acts0, now, wallet, cell0, n, world);
    acts, cell := Go(acts, now, wallet, cell, n + 1, Checked(snap), world);
    acts, cell := Go(acts, now, wallet, cell, n + 1, Started(snap), world);
    acts, cell := Go(acts, now, wallet, cell, n + 1, Ready(snap), world);
  }

  /** One statement of the worker, as written. */
  lemma Go(acts0: seq<Action>, now: Time, wallet: Wallet, cell0: Cell, n: nat, pc: WorkerPc, world: World) returns (acts: seq<Action>, cell: Cell)
    requires Run(Initial, acts0) == One(now, wallet, cell0, n, Worker(0, pc), world)
    ensures acts == acts0 + [Advance(0, Ok)]
    ensures
      var m := WorkStep(world, now, 0, pc, cell0, Ok);
      cell == m.cell && Run(Initial, acts) == One(now, wallet, cell, n, m.proc, m.world)
  {
    hide WorkStep;
    Then(acts0, Advance(0, Ok));
    acts := acts0 + [Advance(0, Ok)];
    cell := WorkStep(world, now, 0, pc, cell0, Ok).cell;
  }

  lemma Fails(acts0: seq<Action>, now: Time, wallet: Wallet, cell0: Cell, n: nat, pc: WorkerPc, world: World) returns (acts: seq<Action>, cell: Cell)
    requires Run(Initial, acts0) == One(now, wallet, cell0, n, Worker(0, pc), world)
    ensures acts == acts0 + [Advance(0, Fault)]
    ensures
      var m := WorkStep(world, now, 0, pc, cell0, Fault);
      cell == m.cell && Run(Initial, acts) == One(now, wallet, cell, n, m.proc, m.world)
  {
    hide WorkStep;
    Then(acts0, Advance(0, Fault));
    acts := acts0 + [Advance(0, Fault)];
    cell := WorkStep(world, now, 0, pc, cell0, Fault).cell;
  }

  /** From the catch block of a first or second attempt to the end of the retry delay. */
  lemma Retried(acts0: seq<Action>, now: Time, wallet: Wallet, cell0: Cell, n: nat, snap: Request, world: World) returns (acts: seq<Action>, cell: Cell)
    requires Run(Initial, acts0) == One(now, wallet, cell0, n, Worker(0, Caught(snap)), world)
    requires !Missing(cell0) && snap.retryCount < 2 && cell0.row.value.queue.value.attemptCount == snap.retryCount
    ensures acts0 <= acts
    ensures Run(Initial, acts) == One(now + RETRY_DELAY, wallet, cell, n, Idle, world)
    ensures cell.row.Some? && cell.row.value.request == cell0.row.value.request.(retryCount := snap.retryCount + 1)
    ensures cell.hist == cell0.hist
    ensures
      cell.row.value.queue
      == Some(cell0.row.value.queue.value.(status := RETRY_WAIT, attemptCount := snap.retryCount + 1, availableAt := now + RETRY_DELAY))
  {
    hide Run;
    var c := cell0;
    acts, c := Go(acts0, now, wallet, c, n, Caught(snap), world);
    acts, c := Go(acts, now, wallet, c, n, Counted(snap), world);
    acts, c := Go(acts, now, wallet, c, n, Reread(snap, snap.retryCount), world);
    Then(acts, Advance(0, Ok));
    acts := acts + [Advance(0, Ok)];
    c := AddAudit(c, LogRetry);
    assert Run(Initial, acts) == One(now, wallet, c, n, Idle, world);
    Then(acts, Tick(RETRY_DELAY));
    acts := acts + [Tick(RETRY_DELAY)];
    cell := c;
  }

  predicate IsAt(acts: seq<Action>, status: Status) {
    |Run(Initial, acts).cells| == 1 && Run(Initial, acts).cells[0].row.Some? && Run(Initial, acts).cells[0].row.value.request.status == status
  }

  /** When the statement after a successful execution fails, the request is taken again and executed a second time:
    * the bound of one success per failed statement is reached, and EXECUTED is left. */
  lemma SecondSuccess() returns (acts: seq<Action>, once: seq<Action>)
    ensures once <= acts && IsAt(once, EXECUTED) && IsAt(acts, PROCESSING)
    ensures Count(acts, 0, Success) == 2 && Count(acts, 0, LateFault) == 1
  {
    hide Run, Count;
    var wallet, c, snap := WalletOf(BACKEND_SEC), NewCell(IntentOf(BACKEND_SEC), 0, 0, 0), RequestOf(BACKEND_SEC, QUEUED, 0, MetaOf(BACKEND_SEC));
    acts, c := Queued(BACKEND_SEC);
    acts, c, snap := Taken(acts, 0, wallet, c, 0, W0);
    acts, c := Go(acts, 0, wallet, c, 1, Calling(snap), W0);
    acts, c := Go(acts, 0, wallet, c, 1, Returned(snap, OnChain), W0);
    once := acts;
    acts, c := Fails(acts, 0, wallet, c, 1, Recorded(snap, OnChain), W0);
    acts, c := Retried(acts, 0, wallet, c, 1, snap, W0);
    acts, c, snap := Taken(acts, RETRY_DELAY, wallet, c, 1, W0);
    acts, c := Go(acts, RETRY_DELAY, wallet, c, 2, Calling(snap), W0);
    CountIsTally(acts, 0, Success);
    CountIsTally(acts, 0, LateFault);
  }

  const WSENT: World := World([], {SIGNED}, [])
  const WMINED: World := World([], {SIGNED}, [Mined(SIGNED, true)])

  lemma Broadcast() returns (acts: seq<Action>, c: Cell, snap: Request)
    ensures Run(Initial, acts) == One(0, WalletOf(SSS), c, 1, Worker(0, SssSent(snap, MetaOf(SSS))), WSENT)
    ensures snap == RequestOf(SSS, QUEUED, 0, MetaOf(SSS))
    ensures c.row.Some? && c.row.value.request == RequestOf(SSS, PROCESSING, 0, MetaOf(SSS))
    ensures c.row.value.queue == Some(Job(0, RUNNING, 0, 0, Some(0)))
    ensures c.hist.lateFaults == 0 && |c.hist.calls| == 1 && c.hist.intent == IntentOf(SSS)
  {
    hide Run;
    acts, c := Queued(SSS);
    acts, c, snap := Taken(acts, 0, WalletOf(SSS), c, 0, W0);
    acts, c := Go(acts, 0, WalletOf(SSS), c, 1, Calling(snap), W0);
    acts, c := Go(acts, 0, WalletOf(SSS), c, 1, SssSigned(snap, MetaOf(SSS)), W0);
  }

  lemma Mines(acts0: seq<Action>, c: Cell, proc: Proc) returns (acts: seq<Action>)
    requires Run(Initial, acts0) == One(0, WalletOf(SSS), c, 1, proc, WSENT)
    ensures acts == acts0 + [Mine(SIGNED, true)] && Run(Initial, acts) == One(0, WalletOf(SSS), c, 1, proc, WMINED)
  {
    hide Run;
    Then(acts0, Mine(SIGNED, true));
    acts := acts0 + [Mine(SIGNED, true)];
  }

  /** An SSS attempt whose transaction takes effect, and whose audit row then cannot be written. */
  lemma MinedButThrown() returns (acts: seq<Action>, c: Cell, snap: Request)
    ensures Run(Initial, acts) == One(0, WalletOf(SSS), c, 1, Worker(0, Caught(snap)), WMINED)
    ensures snap == RequestOf(SSS, QUEUED, 0, MetaOf(SSS))
    ensures c.row.Some? && c.row.value.request == RequestOf(SSS, PROCESSING, 0, Meta(None, None))
    ensures c.row.value.queue == Some(Job(0, RUNNING, 0, 0, Some(0)))
    ensures c.hist.lateFaults == 0 && |c.hist.calls| == 1 && c.hist.intent == IntentOf(SSS)
  {
    hide Run, Step;
    var wallet := WalletOf(SSS);
    acts, c, snap := Broadcast();
    acts := Mines(acts, c, Worker(0, SssSent(snap, MetaOf(SSS))));
    acts, c := Go(acts, 0, wallet, c, 1, SssSent(snap, MetaOf(SSS)), WMINED);
    acts, c := Go(acts, 0, wallet, c, 1, SssMined(snap, MetaOf(SSS)), WMINED);
    acts, c := Fails(acts, 0, wallet, c, 1, SssStripped(snap), WMINED);
  }

  /** An SSS request can end FAILED although its transaction took effect, with no statement failing after a result:
    * the signed transaction is stripped before the executor's last statement, so a retry finds none. */
  lemma FailedThoughMined() returns (acts: seq<Action>)
    ensures IsAt(acts, FAILED) && Mined(SIGNED, true) in Run(Initial, acts).world.mined
    ensures Count(acts, 0, LateFault) == 0 && Count(acts, 0, Execution) == 3
    ensures Run(Initial, acts).cells[0].hist.intent.signedTx == Some(SIGNED)
  {
    hide Run, Count;
    var wallet, c, snap := WalletOf(SSS), NewCell(IntentOf(SSS), 0, 0, 0), RequestOf(SSS, QUEUED, 0, MetaOf(SSS));
    acts, c, snap := MinedButThrown();
    acts, c := Retried(acts, 0, wallet, c, 1, snap, WMINED);
    acts, c, snap := Taken(acts, RETRY_DELAY, wallet, c, 1, WMINED);
    acts, c := Go(acts, RETRY_DELAY, wallet, c, 2, Calling(snap), WMINED);
    acts, c := Retried(acts, RETRY_DELAY, wallet, c, 2, snap, WMINED);
    acts, c, snap := Taken(acts, 2 * RETRY_DELAY, wallet, c, 2, WMINED);
    acts, c := Go(acts, 2 * RETRY_DELAY, wallet, c, 3, Calling(snap), WMINED);
    acts, c := Go(acts, 2 * RETRY_DELAY, wallet, c, 3, Caught(snap), WMINED);
    CountIsTally(acts, 0, LateFault);
    CountIsTally(acts, 0, Execution);
  }

  /** An attempt of an SSS request whose poll loses the receipt after the broadcast. */
  lemma LosesReceipt(acts0: seq<Action>, now: Time, c0: Cell, n: nat) returns (acts: seq<Action>, c: Cell, snap: Request)
    requires Run(Initial, acts0) == One(now, WalletOf(SSS), c0, n, Idle, WMINED)
    requires !Missing(c0) && Eligible(c0, now) && Ticket(c0) == 0 && c0.row.value.request.meta == MetaOf(SSS) && c0.row.value.request.walletType.SSS?
    ensures Run(Initial, acts) == One(now, WalletOf(SSS), c, n + 1, Worker(0, Caught(snap)), WMINED)
    ensures snap == c0.row.value.request
    ensures c.row.Some? && c.row.value.request == snap.(status := PROCESSING)
    ensures c.row.value.queue == Some(c0.row.value.queue.value.(status := RUNNING, workerId := Some(0)))
  {
    hide Run, Step, Eligible;
    var wallet := WalletOf(SSS);
    acts, c, snap := Taken(acts0, now, wallet, c0, n, WMINED);
    acts, c := Go(acts, now, wallet, c, n + 1, Calling(snap), WMINED);
    acts, c := Go(acts, now, wallet, c, n + 1, SssSigned(snap, MetaOf(SSS)), WMINED);
    acts, c := Fails(acts, now, wallet, c, n + 1, SssSent(snap, MetaOf(SSS)), WMINED);
  }

  /** A lost receipt is enough for a FAILED request to keep its signed transaction although it was mined. */
  lemma FailedWithTransaction() returns (acts: seq<Action>)
    ensures IsAt(acts, FAILED) && Mined(SIGNED, true) in Run(Initial, acts).world.mined
    ensures Run(Initial, acts).cells[0].row.value.request.meta.signedTx == Some(SIGNED)
  {
    hide Run, Step;
    var wallet, c, snap := WalletOf(SSS), NewCell(IntentOf(SSS), 0, 0, 0), RequestOf(SSS, QUEUED, 0, MetaOf(SSS));
    acts, c, snap := Broadcast();
    acts := Mines(acts, c, Worker(0, SssSent(snap, MetaOf(SSS))));
    acts, c := Fails(acts, 0, wallet, c, 1, SssSent(snap, MetaOf(SSS)), WMINED);
    acts, c := Retried(acts, 0, wallet, c, 1, snap, WMINED);
    acts, c, snap := LosesReceipt(acts, RETRY_DELAY, c, 1);
    acts, c := Retried(acts, RETRY_DELAY, wallet, c, 2, snap, WMINED);
    acts, c, snap := LosesReceipt(acts, 2 * RETRY_DELAY, c, 2);
    acts, c := Go(acts, 2 * RETRY_DELAY, wallet, c, 3, Caught(snap), WMINED);
  }

  /** A cleanup can delete a request while its poll still has the audit row of the outcome to write: the job is
    * SUCCEEDED by then. The poll's next statement throws, and its catch block finds no row to update. */
  lemma CleanupCutsAudit() returns (acts: seq<Action>)
    ensures ProcOf(Run(Initial, acts), 0).Worker? && ProcOf(Run(Initial, acts), 0).pc.Succeeded?
    ensures
      var cut := acts + [Cleanup({0})];
      && |Run(Initial, cut).cells| == 1 && Run(Initial, cut).cells[0].row.None?
      && ProcOf(Run(Initial, cut + [Advance(0, Ok)]), 0).Worker? && ProcOf(Run(Initial, cut + [Advance(0, Ok)]), 0).pc.Caught?
      && ProcOf(Run(Initial, cut + [Advance(0, Ok)] + [Advance(0, Ok)]), 0).Idle?
  {
    hide Run;
    var wallet, c, snap := WalletOf(BACKEND_SEC), NewCell(IntentOf(BACKEND_SEC), 0, 0, 0), RequestOf(BACKEND_SEC, QUEUED, 0, MetaOf(BACKEND_SEC));
    acts, c := Queued(BACKEND_SEC);
    acts, c, snap := Taken(acts, 0, wallet, c, 0, W0);
    acts, c := Go(acts, 0, wallet, c, 1, Calling(snap), W0);
    acts, c := Go(acts, 0, wallet, c, 1, Returned(snap, OnChain), W0);
    acts, c := Go(acts, 0, wallet, c, 1, Recorded(snap, OnChain), W0);
    Cut(acts, c, snap);
  }

  lemma Cut(acts: seq<Action>, c: Cell, snap: Request)
    requires Run(Initial, acts) == One(0, WalletOf(BACKEND_SEC), c, 1, Worker(0, Succeeded(snap, LogConfirmed)), W0)
    requires !Missing(c) && c.row.value.request.walletId == 0 && !InFlight(c.row.value)
    ensures
      var cut := acts + [Cleanup({0})];
      && |Run(Initial, cut).cells| == 1 && Run(Initial, cut).cells[0].row.None?
      && ProcOf(Run(Initial, cut + [Advance(0, Ok)]), 0) == Worker(0, Caught(snap))
      && ProcOf(Run(Initial, cut + [Advance(0, Ok)] + [Advance(0, Ok)]), 0).Idle?
  {
    hide Run;
    var cut := acts + [Cleanup({0})];
    Then(acts, Cleanup({0}));
    Then(cut, Advance(0, Ok));
    Then(cut + [Advance(0, Ok)], Advance(0, Ok));
  }
}

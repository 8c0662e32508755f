/** What a request of an SSS wallet tells about its transaction, over every run: when FAILED can be trusted, and which
  * of the queued transactions of one account take effect. */
module SssTheorems {
  import opened Domain
  import opened Pipeline
  import opened CellInvariant
  import opened RunInvariant
  import opened StepInvariant
  import opened Guarantees
  import opened ExecutionTheorems
  import opened QueueTheorems

  // ---------- counting ----------

  /** A poll that has broadcast the transaction fails while it waits for the receipt, or while it strips the metadata. */
  predicate Loses(s: State, a: Action, r: ReqId) {
    && WorksOn(s, a, r) && r < |s.cells| && !Missing(s.cells[r]) && a.op.Fault?
    && (ProcOf(s, a.p).pc.SssSent? || ProcOf(s, a.p).pc.SssMined?)
  }

  function LostReceipts(acts: seq<Action>, r: ReqId): nat {
    if |acts| == 0 then 0
    else LostReceipts(acts[..|acts| - 1], r) + if Loses(Run(Initial, acts[..|acts| - 1]), acts[|acts| - 1], r) then 1 else 0
  }

  /** A transaction is broadcast, but not by a poll on request r: by its owner or anybody else, or for another request. */
  predicate SentByOthers(s: State, a: Action, r: ReqId, tx: Tx) {
    || a == Action.Broadcast(tx)
    || (a.Advance? && a.op.Ok? && ProcOf(s, a.p).Worker? && ProcOf(s, a.p).r != r
        && ProcOf(s, a.p).pc.SssSigned? && ProcOf(s, a.p).pc.meta.signedTx == Some(tx))
  }

  function OthersSent(acts: seq<Action>, r: ReqId, tx: Tx): nat {
    if |acts| == 0 then 0
    else OthersSent(acts[..|acts| - 1], r, tx) + if SentByOthers(Run(Initial, acts[..|acts| - 1]), acts[|acts| - 1], r, tx) then 1 else 0
  }

  // ---------- where a broadcast transaction is accounted for ----------

  predicate Carries(c: Cell, tx: Tx) { c.hist.intent.wallet.walletType.SSS? && c.hist.intent.signedTx == Some(tx) }

  /** An attempt after its broadcast: with a poll that waits or strips, or abandoned there. */
  ghost predicate InSending(s: State, r: ReqId)
    requires r < |s.cells|
  {
    && !Missing(s.cells[r]) && s.cells[r].row.value.queue.value.status.RUNNING? && !s.cells[r].row.value.request.status.FAILED?
    && forall p :: HeldBy(s, p, r) ==> ProcOf(s, p).pc.SssSent? || ProcOf(s, p).pc.SssMined?
  }

  ghost predicate Explained(s: State, r: ReqId, tx: Tx)
    requires r < |s.cells|
  {
    || Mined(tx, false) in s.world.mined
    || !Carries(s.cells[r], tx)
    || s.cells[r].row.None?
    || s.cells[r].row.value.request.meta.signedTx.None?
    || InSending(s, r)
  }

  ghost predicate Accounted(s: State, r: ReqId, tx: Tx) {
    tx in s.world.mempool ==> r < |s.cells| && Explained(s, r, tx)
  }

  lemma NewInMempool(s: State, a: Action, r: ReqId, tx: Tx)
    requires tx !in s.world.mempool && tx in Step(s, a).world.mempool && !SentByOthers(s, a, r, tx)
    ensures a.Advance? && a.op.Ok? && HeldBy(s, a.p, r) && r < |s.cells| && !Missing(s.cells[r])
    ensures ProcOf(s, a.p).pc.SssSigned? && ProcOf(s, a.p).pc.meta.signedTx == Some(tx)
  {
  }

  /** What is not done by the poll on it leaves a queued SSS request's own row alone. */
  lemma OthersKeepRequest(s: State, a: Action, r: ReqId)
    requires Inv(s) && r < |s.cells| && !Missing(s.cells[r]) && s.cells[r].hist.intent.wallet.walletType.SSS? && !WorksOn(s, a, r)
    ensures r < |Step(s, a).cells|
    ensures Step(s, a).cells[r].row.Some? ==> Step(s, a).cells[r].row.value.request == s.cells[r].row.value.request
  {
    hide Inv, CellInv, AdvanceStep, StartStep;
    InvParts(s);
    assert CellInv(s.world, s.now, s.cells[r]);
    if a.Advance? { AdvanceKeepsRequest(s, a.p, a.op, r); }
    else if a.Reserve? || a.Settle? || a.Expire? || a.Approve? || a.Reject? || a.Withdraw? { StartKeepsRequest(s, a, r); }
  }

  lemma AdvanceKeepsRequest(s: State, p: Pid, op: Op, r: ReqId)
    requires ProcsInv(s) && r < |s.cells| && CellInv(s.world, s.now, s.cells[r]) && !HeldBy(s, p, r)
    requires !Missing(s.cells[r]) && s.cells[r].hist.intent.wallet.walletType.SSS?
    ensures r < |AdvanceStep(s, p, op).cells| && AdvanceStep(s, p, op).cells[r].row.Some?
    ensures AdvanceStep(s, p, op).cells[r].row.value.request == s.cells[r].row.value.request
  {
    hide CellInv, WorkStep, WorkerLink, NoteLink, OwesExit;
    QueuedNotPending(s.world, s.now, s.cells[r]);
    if p in s.procs { assert ProcLink(s.world, s.now, p, s.procs[p], s.cells); }
  }

  lemma StartKeepsRequest(s: State, a: Action, r: ReqId)
    requires a.Reserve? || a.Settle? || a.Expire? || a.Approve? || a.Reject? || a.Withdraw?
    requires r < |s.cells| && CellInv(s.world, s.now, s.cells[r]) && !Missing(s.cells[r])
    ensures r < |StartStep(s, a).cells| && StartStep(s, a).cells[r].row.Some?
    ensures StartStep(s, a).cells[r].row.value.request == s.cells[r].row.value.request
  {
    hide CellInv;
    QueuedNotPending(s.world, s.now, s.cells[r]);
  }

  lemma StrippedLocally(w: World, now: Time, p: Pid, r: ReqId, pc: WorkerPc, c: Cell, op: Op)
    requires WorkerLink(w, p, pc, c) && c.row.Some? && c.hist.intent.wallet.walletType.SSS? && c.row.value.request.meta.signedTx.None?
    ensures
      var c' := WorkStep(w, now, r, pc, c, op).cell;
      c'.row.Some? ==> c'.row.value.request.meta.signedTx.None?
  {
  }

  /** Stripped metadata stay stripped. */
  lemma StaysStripped(s: State, a: Action, r: ReqId)
    requires Inv(s) && r < |s.cells| && s.cells[r].row.Some? && s.cells[r].hist.intent.wallet.walletType.SSS?
    requires s.cells[r].row.value.request.meta.signedTx.None?
    ensures r < |Step(s, a).cells|
    ensures Step(s, a).cells[r].row.Some? ==> Step(s, a).cells[r].row.value.request.meta.signedTx.None?
  {
    hide Inv, CellInv, WorkerLink, Step, WorkStep;
    InvParts(s);
    SssIsQueued(s, r);
    if WorksOn(s, a, r) {
      assert ProcLink(s.world, s.now, a.p, s.procs[a.p], s.cells);
      StrippedLocally(s.world, s.now, a.p, r, ProcOf(s, a.p).pc, s.cells[r], a.op);
      WorkCell(s, a, r);
    } else {
      OthersKeepRequest(s, a, r);
    }
  }

  lemma WorkCell(s: State, a: Action, r: ReqId)
    requires WorksOn(s, a, r) && r < |s.cells|
    ensures |Step(s, a).cells| == |s.cells| && Step(s, a).world.mined == WorkStep(s.world, s.now, r, ProcOf(s, a.p).pc, s.cells[r], a.op).world.mined
    ensures Step(s, a).cells[r] == WorkStep(s.world, s.now, r, ProcOf(s, a.p).pc, s.cells[r], a.op).cell
    ensures forall q :: ProcOf(Step(s, a), q) == if q == a.p then WorkStep(s.world, s.now, r, ProcOf(s, a.p).pc, s.cells[r], a.op).proc else ProcOf(s, q)
  {
    hide WorkStep;
  }

  lemma SssIsQueued(s: State, r: ReqId)
    requires CellsInv(s) && r < |s.cells| && s.cells[r].row.Some? && s.cells[r].hist.intent.wallet.walletType.SSS?
    ensures !Missing(s.cells[r])
  {
    assert CellInv(s.world, s.now, s.cells[r]);
  }

  // ---------- one step ----------

  /** A poll that broadcasts the request's own transaction is then waiting for it, on a request that is not FAILED. */
  lemma JustBroadcast(s: State, a: Action, r: ReqId, tx: Tx)
    requires Inv(s) && tx !in s.world.mempool && tx in Step(s, a).world.mempool && !SentByOthers(s, a, r, tx)
    ensures r < |Step(s, a).cells| && Explained(Step(s, a), r, tx)
  {
    hide Inv, CellInv, WorkerLink, WorkStep, Step;
    NewInMempool(s, a, r, tx);
    InvParts(s);
    assert ProcLink(s.world, s.now, a.p, s.procs[a.p], s.cells);
    var pc := ProcOf(s, a.p).pc;
    WorkCell(s, a, r);
    SendingNow(s.world, s.now, a.p, r, pc, s.cells[r]);
    forall q | HeldBy(Step(s, a), q, r) ensures ProcOf(Step(s, a), q).pc.SssSent? {
      if q != a.p {
        OwnerNamed(s, r, q);
        OwnerNamed(s, r, a.p);
      }
    }
  }

  lemma SendingNow(w: World, now: Time, p: Pid, r: ReqId, pc: WorkerPc, c: Cell)
    requires CellInv(w, now, c) && WorkerLink(w, p, pc, c) && pc.SssSigned? && !Missing(c)
    ensures
      var m := WorkStep(w, now, r, pc, c, Ok);
      && m.cell == c && m.proc.Worker? && m.proc.pc.SssSent? && c.row.value.queue.value.status.RUNNING?
      && (c.row.value.request.meta.signedTx.Some? ==> !c.row.value.request.status.FAILED?)
  {
  }

  lemma SendingWorks(w: World, now: Time, p: Pid, r: ReqId, pc: WorkerPc, c: Cell, op: Op, tx: Tx)
    requires WorkerLink(w, p, pc, c) && (pc.SssSent? || pc.SssMined?) && !op.Fault? && !Missing(c) && Carries(c, tx)
    requires !c.row.value.request.status.FAILED?
    ensures
      var m := WorkStep(w, now, r, pc, c, op);
      || Mined(tx, false) in m.world.mined
      || (m.cell.row.Some? && m.cell.row.value.request.meta.signedTx.None?)
      || (m.cell.row == c.row && (m.proc.Idle? || (m.proc.Worker? && (m.proc.pc.SssSent? || m.proc.pc.SssMined?))))
  {
  }

  lemma SendingStays(s: State, a: Action, r: ReqId, tx: Tx)
    requires Inv(s) && r < |s.cells| && InSending(s, r) && Carries(s.cells[r], tx) && !Loses(s, a, r)
    ensures r < |Step(s, a).cells| && Explained(Step(s, a), r, tx)
  {
    hide Inv, CellInv, WorkerLink, WorkStep, Step, Takes;
    InvParts(s);
    if WorksOn(s, a, r) {
      assert ProcLink(s.world, s.now, a.p, s.procs[a.p], s.cells);
      WorkCell(s, a, r);
      SendingWorks(s.world, s.now, a.p, r, ProcOf(s, a.p).pc, s.cells[r], a.op, tx);
    } else {
      NotTaken(s, a, r);
      StepLeaves(s, a, r);
      OthersKeepRequest(s, a, r);
    }
  }

  lemma IntentAndChain(s: State, a: Action, r: ReqId)
    requires Inv(s) && r < |s.cells|
    ensures r < |Step(s, a).cells| && Step(s, a).cells[r].hist.intent == s.cells[r].hist.intent
    ensures s.cells[r].row.None? ==> Step(s, a).cells[r].row.None?
  {
    hide Inv, Step;
    StepGuards(s, a, r);
  }

  lemma MinedStays(s: State, a: Action)
    ensures s.world.mined <= Step(s, a).world.mined
  {
  }

  lemma AccountedStep(s: State, a: Action, r: ReqId, tx: Tx)
    requires Inv(s) && Accounted(s, r, tx) && !Loses(s, a, r) && !SentByOthers(s, a, r, tx)
    ensures Accounted(Step(s, a), r, tx)
  {
    hide Inv, Step, InSending, Loses, SentByOthers;
    if tx in Step(s, a).world.mempool {
      if tx !in s.world.mempool { JustBroadcast(s, a, r, tx); }
      else {
        IntentAndChain(s, a, r);
        MinedStays(s, a);
        if Mined(tx, false) in s.world.mined || !Carries(s.cells[r], tx) || s.cells[r].row.None? {
        } else if s.cells[r].row.value.request.meta.signedTx.None? {
          StaysStripped(s, a, r);
        } else {
          SendingStays(s, a, r, tx);
        }
      }
    }
  }

  lemma {:induction false} AlwaysAccounted(acts: seq<Action>, r: ReqId, tx: Tx)
    requires LostReceipts(acts, r) == 0 && OthersSent(acts, r, tx) == 0
    ensures Accounted(Run(Initial, acts), r, tx)
  {
    hide Inv, Step, Loses, SentByOthers, Accounted;
    if |acts| > 0 {
      var before := acts[..|acts| - 1];
      RunLast(Initial, acts);
      AlwaysAccounted(before, r, tx);
      Reachable(before);
      AccountedStep(Run(Initial, before), acts[|acts| - 1], r, tx);
    } else {
      assert Accounted(Initial, r, tx) by { NothingSent(r, tx); }
    }
  }

  lemma NothingSent(r: ReqId, tx: Tx)
    ensures Accounted(Initial, r, tx)
  {
  }

  // ---------- the chain ----------

  lemma MinedWasSent(s: State, a: Action)
    requires forall i :: 0 <= i < |s.world.mined| ==> s.world.mined[i].tx in s.world.mempool
    ensures forall i :: 0 <= i < |Step(s, a).world.mined| ==> Step(s, a).world.mined[i].tx in Step(s, a).world.mempool
  {
  }

  lemma {:induction false} OnlySentIsMined(acts: seq<Action>)
    ensures forall i :: 0 <= i < |Run(Initial, acts).world.mined| ==> Run(Initial, acts).world.mined[i].tx in Run(Initial, acts).world.mempool
  {
    hide Step;
    if |acts| > 0 {
      RunLast(Initial, acts);
      OnlySentIsMined(acts[..|acts| - 1]);
      MinedWasSent(Run(Initial, acts[..|acts| - 1]), acts[|acts| - 1]);
    }
  }

  /** Whatever becomes of requests: of all transactions of one sender and nonce at most one is ever mined, and once. */
  lemma OneMinedPerNonce(acts: seq<Action>, m1: Mined, m2: Mined)
    requires m1 in Run(Initial, acts).world.mined && m2 in Run(Initial, acts).world.mined
    requires m1.tx.from == m2.tx.from && m1.tx.nonce == m2.tx.nonce
    ensures m1 == m2
  {
    hide Run;
    var mined := Run(Initial, acts).world.mined;
    var i :| 0 <= i < |mined| && mined[i] == m1;
    var j :| 0 <= j < |mined| && mined[j] == m2;
    if i < j { OnePerNonce(acts, i, j); } else if j < i { OnePerNonce(acts, j, i); }
  }

  /** Of all requests' signed transactions for one wallet address and nonce at most one takes effect, whatever the
    * statuses of the requests, also when they are deleted; and it moves the amount of its request to its recipient. */
  lemma OneEffectPerNonce(acts: seq<Action>, r1: ReqId, r2: ReqId)
    requires r1 < |Run(Initial, acts).cells| && r2 < |Run(Initial, acts).cells|
    requires forall r :: r == r1 || r == r2 ==>
               && Run(Initial, acts).cells[r].hist.intent.wallet.walletType.SSS?
               && Run(Initial, acts).cells[r].hist.intent.signedTx.Some?
               && Mined(Run(Initial, acts).cells[r].hist.intent.signedTx.value, true) in Run(Initial, acts).world.mined
    ensures
      var i1, i2 := Run(Initial, acts).cells[r1].hist.intent, Run(Initial, acts).cells[r2].hist.intent;
      && (i1.wallet.address == i2.wallet.address && i1.signedTx.value.nonce == i2.signedTx.value.nonce ==> i1.signedTx == i2.signedTx)
      && i1.signedTx.value.from == i1.wallet.address && i1.signedTx.value.to == i1.to && i1.signedTx.value.value == i1.amount
  {
    hide Run;
    var s := Run(Initial, acts);
    CellAt(acts, r1);
    CellAt(acts, r2);
    var m1, m2 := Mined(s.cells[r1].hist.intent.signedTx.value, true), Mined(s.cells[r2].hist.intent.signedTx.value, true);
    if m1.tx.from == m2.tx.from && m1.tx.nonce == m2.tx.nonce { OneMinedPerNonce(acts, m1, m2); }
  }

  // ---------- what a row tells ----------

  /** The signed transaction is gone from the metadata only after it took effect, whatever the status. */
  lemma StrippedMeansMined(acts: seq<Action>, r: ReqId)
    requires r < |Run(Initial, acts).cells| && Run(Initial, acts).cells[r].row.Some?
    requires Run(Initial, acts).cells[r].row.value.request.walletType.SSS?
    requires Run(Initial, acts).cells[r].row.value.request.meta.signedTx.None?
    ensures
      var s := Run(Initial, acts);
      s.cells[r].hist.intent.signedTx.Some? && Mined(s.cells[r].hist.intent.signedTx.value, true) in s.world.mined
  {
    hide Run;
    CellAt(acts, r);
  }

  /** FAILED, read with the metadata: the transaction of a FAILED request took effect if it was stripped, and only if it
    * was stripped, unless a poll failed between its broadcast and the stripping or somebody else broadcast it. */
  lemma FailedTells(acts: seq<Action>, r: ReqId)
    requires r < |Run(Initial, acts).cells| && Run(Initial, acts).cells[r].row.Some?
    requires Run(Initial, acts).cells[r].row.value.request.walletType.SSS?
    requires Run(Initial, acts).cells[r].row.value.request.status.FAILED?
    ensures
      var s := Run(Initial, acts);
      var i, q := s.cells[r].hist.intent, s.cells[r].row.value.request;
      && i.signedTx.Some?
      && (q.meta.signedTx.None? ==> Mined(i.signedTx.value, true) in s.world.mined)
      && (LostReceipts(acts, r) == 0 && OthersSent(acts, r, i.signedTx.value) == 0 ==>
            (Mined(i.signedTx.value, true) in s.world.mined <==> q.meta.signedTx.None?))
  {
    hide Run, Loses, SentByOthers;
    var s := Run(Initial, acts);
    var c := s.cells[r];
    CellAt(acts, r);
    var tx := c.hist.intent.signedTx.value;
    if LostReceipts(acts, r) == 0 && OthersSent(acts, r, tx) == 0 && Mined(tx, true) in s.world.mined {
      OnlySentIsMined(acts);
      AlwaysAccounted(acts, r, tx);
      if Mined(tx, false) in s.world.mined { OneMinedPerNonce(acts, Mined(tx, true), Mined(tx, false)); }
    }
  }
}

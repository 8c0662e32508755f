/** Every step of every actor keeps the invariant of the pipeline, so every reachable state has it. */
module StepInvariant {
  import opened Domain
  import opened Pipeline
  import opened CellInvariant
  import opened LocalSteps
  import opened OtherSteps
  import opened RunInvariant

  // ---------- the next statement of a process ----------

  predicate Hands(w: World, p: Pid, r: ReqId, pc: WorkerPc, c: Cell, m: Moved) {
    SameQueue(c, m.cell) && HandsOn(p, m.proc, r, Worker(r, pc), c, m.cell) && m.world.mined == w.mined
  }

  lemma PlainHands(w: World, now: Time, p: Pid, r: ReqId, pc: WorkerPc, c: Cell)
    requires CellInv(w, now, c) && WorkerLink(w, p, pc, c) && !Missing(c) && !InTry(pc)
    ensures Hands(w, p, r, pc, c, PlainStep(w, now, r, pc, c))
  {
    LocalSteps.Balance(w, now, c);
    hide CellInv, Quiet, Backed;
  }

  lemma TryHands(w: World, now: Time, p: Pid, r: ReqId, pc: WorkerPc, c: Cell)
    requires CellInv(w, now, c) && WorkerLink(w, p, pc, c) && !Missing(c) && InTry(pc)
    ensures Hands(w, p, r, pc, c, TryStep(w, r, pc, c))
  {
    LocalSteps.Balance(w, now, c);
    hide CellInv, Quiet, Backed;
  }

  lemma ThrowHands(w: World, now: Time, p: Pid, r: ReqId, pc: WorkerPc, c: Cell, op: Op)
    requires CellInv(w, now, c) && WorkerLink(w, p, pc, c) && (!op.Ok? || Missing(c))
    ensures Hands(w, p, r, pc, c, WorkStep(w, now, r, pc, c, op))
  {
    hide PlainStep, TryStep;
    if !Missing(c) { LocalSteps.Balance(w, now, c); }
    hide CellInv, Quiet, Backed;
  }

  lemma WorkHands(w: World, now: Time, p: Pid, r: ReqId, pc: WorkerPc, c: Cell, op: Op)
    requires CellInv(w, now, c) && WorkerLink(w, p, pc, c)
    ensures Hands(w, p, r, pc, c, WorkStep(w, now, r, pc, c, op))
  {
    hide CellInv, WorkerLink, Hands, PlainStep, TryStep, InTry, Missing;
    if !op.Ok? || Missing(c) { ThrowHands(w, now, p, r, pc, c, op); }
    else if InTry(pc) { TryHands(w, now, p, r, pc, c); }
    else { PlainHands(w, now, p, r, pc, c); }
  }

  lemma WorkAdvances(s: State, p: Pid, op: Op, r: ReqId, pc: WorkerPc)
    requires Inv(s) && ProcOf(s, p) == Worker(r, pc)
    ensures Inv(AdvanceStep(s, p, op))
  {
    hide CellInv, WorkerLink, NoteLink, Guar, Grows, SameQueue, HandsOn, WorkStep, Inv;
    assert CellsInv(s) && ProcsInv(s) by { assert Inv(s); InvParts(s); }
    assert ProcLink(s.world, s.now, p, s.procs[p], s.cells);
    var c := s.cells[r];
    var m := WorkStep(s.world, s.now, r, pc, c, op);
    WorkStepSafe(s.world, s.now, p, r, pc, c, op);
    WorkHands(s.world, s.now, p, r, pc, c, op);
    LocalLift(s, Apply(s, p, r, m), p, r, m.proc, m.cell);
  }

  lemma InvParts(s: State)
    requires Inv(s)
    ensures CellsInv(s) && ProcsInv(s) && QueueInv(s) && KeysInv(s) && WalletsInv(s) && HeldInv(s) && ChainInv(s.world.mined)
  {
  }

  lemma NoteAdvances(s: State, p: Pid, op: Op, r: ReqId, before: Option<AuditEvent>, last: AuditEvent, reply: Option<Answer>)
    requires Inv(s) && ProcOf(s, p) == Noting(r, before, last, reply)
    ensures Inv(AdvanceStep(s, p, op))
  {
    hide CellInv, WorkerLink, NoteLink, Guar, Grows, Inv;
    InvParts(s);
    assert ProcLink(s.world, s.now, p, s.procs[p], s.cells);
    var c := s.cells[r];
    var m := NoteStep(s.world, r, before, last, reply, c, op);
    NoteStepSafe(s.world, s.now, p, r, before, last, reply, c, op);
    LocalLift(s, Apply(s, p, r, m), p, r, m.proc, m.cell);
  }

  lemma SettleAdvances(s: State, p: Pid, op: Op, todo: seq<Snapshot>, sp: SettlePc)
    requires Inv(s) && ProcOf(s, p) == Settling(todo, sp) && todo != []
    ensures Inv(AdvanceStep(s, p, op))
  {
    hide CellInv, SnapLink, SettleHead, Guar, Inv;
    InvParts(s);
    assert ProcLink(s.world, s.now, p, s.procs[p], s.cells);
    var r := todo[0].r;
    var c := s.cells[r];
    var m := SettleStep(s.world, todo, sp, c, op);
    SettleStepSafe(s.world, s.now, p, todo, sp, c, op);
    var s' := Apply(s, p, r, m);
    SnapsStable(s, s', p, r, m.proc, m.cell, todo);
    SettleHands(s.world, s.now, p, r, todo, sp, c, op);
    AskingFree(s.world, todo);
    LocalLift(s, s', p, r, m.proc, m.cell);
  }

  lemma AskingFree(w: World, todo: seq<Snapshot>)
    ensures forall i :: 0 <= i < |todo| ==> SettleHead(w, todo[i].request, Asking)
  {
  }

  lemma SettleHands(w: World, now: Time, p: Pid, r: ReqId, todo: seq<Snapshot>, sp: SettlePc, c: Cell, op: Op)
    requires todo != [] && CellInv(w, now, c) && SnapLink(w, todo[0].request, c)
    ensures
      var m := SettleStep(w, todo, sp, c, op);
      SameQueue(c, m.cell) && HandsOn(p, m.proc, r, Settling(todo, sp), c, m.cell)
  {
  }

  lemma ExpireHands(w: World, now: Time, p: Pid, r: ReqId, ids: seq<ReqId>, logging: bool, c: Cell, op: Op)
    requires ids != [] && CellInv(w, now, c)
    ensures
      var m := ExpireStep(w, p, ids, logging, c, op);
      SameQueue(c, m.cell) && HandsOn(p, m.proc, r, Expiring(ids, logging), c, m.cell)
  {
  }

  lemma ExpireAdvances(s: State, p: Pid, op: Op, ids: seq<ReqId>, logging: bool)
    requires Inv(s) && ProcOf(s, p) == Expiring(ids, logging) && ids != []
    ensures Inv(AdvanceStep(s, p, op))
  {
    hide CellInv, ExpireLink, OwesExit, Guar, Inv;
    InvParts(s);
    assert ProcLink(s.world, s.now, p, s.procs[p], s.cells);
    var r := ids[0];
    var c := s.cells[r];
    var m := ExpireStep(s.world, p, ids, logging, c, op);
    ExpireStepSafe(s.world, s.now, p, ids, logging, c, op);
    var s' := Apply(s, p, r, m);
    IdsStable(s, s', p, r, m.proc, m.cell, ids);
    ExpireHands(s.world, s.now, p, r, ids, logging, c, op);
    LocalLift(s, s', p, r, m.proc, m.cell);
  }

  // ---------- withdraw ----------

  lemma BecomeKeeps(s: State, p: Pid, proc: Proc)
    requires Inv(s) && !ProcOf(s, p).Worker? && ProcLink(s.world, s.now, p, proc, s.cells)
    ensures Inv(Become(s, p, proc))
  {
    hide CellInv, ProcLink, ChainInv;
  }

  lemma ReplyKeeps(s: State, p: Pid, r: ReqId, i: Intent)
    requires Inv(s) && !ProcOf(s, p).Worker? && r < |s.cells| && i.key == s.cells[r].hist.intent.key
    ensures Inv(Reply(s, p, r, i))
  {
    hide CellInv, Guar, Inv;
    InvParts(s);
    var c := s.cells[r];
    GuarRefl(p, c);
    var c' := c.(hist := c.hist.(answers := c.hist.answers + [Answer(i.key, i.walletId)]));
    ReplySafe(s.world, s.now, p, c, c, Answer(i.key, i.walletId));
    LocalLift(s, Reply(s, p, r, i), p, r, Idle, c');
  }

  lemma KeyOfRow(w: World, now: Time, c: Cell)
    requires CellInv(w, now, c) && c.row.Some?
    ensures c.hist.intent.key == c.row.value.request.key
  {
  }

  lemma WithdrawAdvances(s: State, p: Pid, op: Op)
    requires Inv(s) && (ProcOf(s, p).Looking? || ProcOf(s, p).Inserting? || ProcOf(s, p).Conflicted?)
    ensures Inv(AdvanceStep(s, p, op))
  {
    hide CellInv, Inv, Authorised, SssAccepted;
    InvParts(s);
    var proc := ProcOf(s, p);
    assert ProcLink(s.world, s.now, p, proc, s.cells);
    var i := proc.intent;
    BecomeKeeps(s, p, Idle);
    if op.Ok? {
      if i.key.Some? {
        var found := FindKey(s.cells, i.key.value, if proc.Looking? then Some(i.walletId) else None);
        if found.Some? {
          KeyOfRow(s.world, s.now, s.cells[found.value]);
          ReplyKeeps(s, p, found.value, i);
        }
      }
      if proc.Looking? && (i.wallet.walletType.SSS? ==> SssAccepted(i)) { BecomeKeeps(s, p, Inserting(i)); }
      if proc.Inserting? {
        BecomeKeeps(s, p, Conflicted(i));
        if i.walletId in s.wallets && (i.key.Some? ==> FindKey(s.cells, i.key.value, None).None?) { InsertKeeps(s, p, i); }
      }
    }
  }

  /** A state that gains a request, and its queue row unless it is a MULTISIG one. */
  predicate Gains(s: State, s': State, p: Pid, proc: Proc, c: Cell) {
    && s'.cells == s.cells + [c] && s'.procs == s.procs[p := proc] && s'.now == s.now && s'.world == s.world
    && s'.wallets == s.wallets && s'.nextWallet == s.nextWallet
  }

  lemma ProcExtends(w: World, now: Time, p: Pid, proc: Proc, cells: seq<Cell>, c: Cell)
    requires ProcLink(w, now, p, proc, cells)
    ensures ProcLink(w, now, p, proc, cells + [c])
  {
    hide WorkerLink, NoteLink, SnapLink, OwesExit, SettleHead, ExpireLink;
  }

  lemma ProcsGain(s: State, s': State, p: Pid, proc: Proc, c: Cell)
    requires ProcsInv(s) && Gains(s, s', p, proc, c) && ProcLink(s'.world, s'.now, p, proc, s'.cells)
    ensures ProcsInv(s')
  {
    hide ProcLink;
    forall q | q in s'.procs && q != p ensures ProcLink(s'.world, s'.now, q, s'.procs[q], s'.cells) {
      ProcExtends(s.world, s.now, q, s.procs[q], s.cells, c);
    }
  }

  lemma QueueGain(s: State, s': State, p: Pid, proc: Proc, c: Cell)
    requires QueueInv(s) && Gains(s, s', p, proc, c)
    requires
      if Missing(c) then s'.tickets == s.tickets && s'.resv == s.resv
      else s'.tickets == s.tickets + [|s.cells|] && s'.resv == s.resv + [0] && c.row.value.queue.value == NewJob(|s.tickets|, s.now)
    ensures QueueInv(s')
  {
    forall r | 0 <= r < |s'.cells| ensures TicketInv(s', s'.cells[r], r) {
      if r < |s.cells| { assert TicketInv(s, s.cells[r], r); }
    }
    forall t | 0 <= t < |s'.resv| && s'.resv[t] == 0 ensures Unreserved(s', t) {
      if t < |s.resv| { assert Unreserved(s, t); }
    }
  }

  lemma SmallGain(s: State, s': State, p: Pid, proc: Proc, c: Cell)
    requires KeysInv(s) && WalletsInv(s) && HeldInv(s) && Gains(s, s', p, proc, c) && c.row.Some? && !ProcOf(s, p).Worker?
    requires c.row.value.request.walletId in s.wallets && !Unfinished(c)
    requires c.row.value.request.key.Some? ==> forall r :: 0 <= r < |s.cells| ==> !HasKey(s.cells[r], c.row.value.request.key.value)
    ensures KeysInv(s') && WalletsInv(s') && HeldInv(s')
  {
    forall r | 0 <= r < |s'.cells| && Unfinished(s'.cells[r]) && s'.cells[r].hist.crashes == 0
      ensures s'.cells[r].row.value.queue.value.workerId.Some? && HeldBy(s', s'.cells[r].row.value.queue.value.workerId.value, r)
    {
      assert s'.cells[r] == s.cells[r];
    }
  }

  lemma InsertKeeps(s: State, p: Pid, i: Intent)
    requires Inv(s) && !ProcOf(s, p).Worker? && Authorised(i) && (i.wallet.walletType.SSS? ==> SssAccepted(i))
    requires i.walletId in s.wallets && (i.key.Some? ==> FindKey(s.cells, i.key.value, None).None?)
    ensures Inv(Insert(s, p, i))
  {
    hide CellInv, Inv, Authorised, SssAccepted, OwesExit;
    InvParts(s);
    var c := NewCell(i, p, s.now, |s.tickets|);
    var s' := Insert(s, p, i);
    var proc := s'.procs[p];
    InsertSafe(s.world, s.now, p, i, |s.tickets|);
    assert CellsInv(s');
    ProcsGain(s, s', p, proc, c);
    QueueGain(s, s', p, proc, c);
    SmallGain(s, s', p, proc, c);
    assert Inv(s') by { InvWhole(s'); }
  }

  lemma InvWhole(s: State)
    requires CellsInv(s) && ProcsInv(s) && QueueInv(s) && KeysInv(s) && WalletsInv(s) && HeldInv(s) && ChainInv(s.world.mined)
    ensures Inv(s)
  {
  }

  // ---------- starts ----------

  /** The oldest eligible job is reserved only when every older one has been reserved before. */
  lemma OlderReserved(s: State, r: ReqId, u: nat)
    requires QueueInv(s) && r < |s.cells| && Oldest(s.cells, s.now) == Some(r) && u < Ticket(s.cells[r]) < |s.resv|
    ensures s.resv[u] != 0
  {
    assert s.resv[u] == 0 ==> Unreserved(s, u);
  }

  lemma ReserveQueue(s: State, p: Pid, r: ReqId)
    requires QueueInv(s) && r < |s.cells| && Oldest(s.cells, s.now) == Some(r) && CellInv(s.world, s.now, s.cells[r])
    ensures QueueInv(ReserveNext(s, p))
  {
    hide CellInv;
    var c := s.cells[r];
    var t := Ticket(c);
    var s' := ReserveNext(s, p);
    assert TicketInv(s, c, r);
    assert c.row.value.queue.value.attemptCount <= 2 by { AttemptsBounded(s.world, s.now, c); }
    forall i | 0 <= i < |s'.cells| ensures TicketInv(s', s'.cells[i], i) {
      assert TicketInv(s, s.cells[i], i);
    }
    forall u | 0 <= u < |s'.resv| && s'.resv[u] == 0 ensures Unreserved(s', u) {
      assert Unreserved(s, u);
      assert s.tickets[u] != r;
    }
    forall u | 0 <= u < t ensures s.resv[u] != 0 {
      OlderReserved(s, r, u);
    }
  }

  lemma AttemptsBounded(w: World, now: Time, c: Cell)
    requires CellInv(w, now, c) && !Missing(c)
    ensures c.row.value.queue.value.attemptCount <= 2
  {
  }

  lemma ReserveKeeps(s: State, p: Pid)
    requires Inv(s) && ProcOf(s, p).Idle?
    ensures Inv(ReserveNext(s, p))
  {
    hide CellInv, Inv, WorkerLink, Guar;
    InvParts(s);
    var found := Oldest(s.cells, s.now);
    if found.Some? && Ticket(s.cells[found.value]) < |s.resv| {
      var r := found.value;
      var c' := ReserveCell(s.cells[r], p);
      var s' := ReserveNext(s, p);
      ReserveSafe(s.world, s.now, p, s.cells[r]);
      WorldRefl(s.world);
      CellsLift(s, s', p, r, Worker(r, Claimed), c');
      ProcsLift(s, s', p, r, Worker(r, Claimed), c');
      SmallLifts(s, s', p, r, Worker(r, Claimed), c');
      HeldLift(s, s', p, r, Worker(r, Claimed), c');
      ReserveQueue(s, p, r);
      InvWhole(s');
    }
  }

  lemma WorldRefl(w: World)
    ensures Grows(w, w)
  {
  }

  lemma ApproveKeeps(s: State, p: Pid, r: ReqId, admin: nat)
    requires Inv(s) && ProcOf(s, p).Idle? && r < |s.cells|
    ensures Inv(ApproveStep(s, p, r, admin))
  {
    hide CellInv, Inv, Guar, OwesExit, Grows;
    InvParts(s);
    var s' := ApproveStep(s, p, r, admin);
    ApproveSafe(s.world, s.now, p, admin, s.cells[r], |s.tickets|);
    WorldRefl(s.world);
    match ApproveTx(s.now, p, admin, s.cells[r], |s.tickets|)
    case ApprovalAdded(c) =>
      LocalLift(s, Become(s, p, Idle).(cells := s.cells[r := c]), p, r, Idle, c);
      IdleIsDefault(s, s', p, r, c);
    case ApprovedAndQueued(c) =>
      var proc := Noting(r, None, LogQueued, None);
      CellsLift(s, s', p, r, proc, c);
      ProcsLift(s, s', p, r, proc, c);
      SmallLifts(s, s', p, r, proc, c);
      HeldLift(s, s', p, r, proc, c);
      QueueEnqueue(s, s', p, r, proc, c);
      InvWhole(s');
    case _ =>
  }

  /** A process that is idle need not be listed. */
  lemma IdleIsDefault(s: State, s': State, p: Pid, r: ReqId, c: Cell)
    requires r < |s.cells| && ProcOf(s, p).Idle? && s' == s.(cells := s.cells[r := c])
    requires Inv(Become(s, p, Idle).(cells := s.cells[r := c]))
    ensures Inv(s')
  {
    hide CellInv, ProcLink, ChainInv;
    var s1 := Become(s, p, Idle).(cells := s.cells[r := c]);
    forall q | q in s'.procs ensures ProcLink(s'.world, s'.now, q, s'.procs[q], s'.cells) {
      assert q in s1.procs && s1.procs[q] == s'.procs[q];
    }
    assert forall q :: ProcOf(s', q) == ProcOf(s1, q);
  }

  lemma QueueEnqueue(s: State, s': State, p: Pid, r: ReqId, proc: Proc, c: Cell)
    requires QueueInv(s) && Update(s, s', p, r, proc, c) && Missing(s.cells[r])
    requires !Missing(c) && c.row.value.queue.value == NewJob(|s.tickets|, s.now)
    requires s'.tickets == s.tickets + [r] && s'.resv == s.resv + [0]
    ensures QueueInv(s')
  {
    forall i | 0 <= i < |s'.cells| ensures TicketInv(s', s'.cells[i], i) {
      if i != r { assert TicketInv(s, s.cells[i], i); }
    }
    forall t | 0 <= t < |s'.resv| && s'.resv[t] == 0 ensures Unreserved(s', t) {
      if t < |s.resv| { assert Unreserved(s, t); }
    }
  }

  lemma RejectKeeps(s: State, p: Pid, r: ReqId)
    requires Inv(s) && ProcOf(s, p).Idle? && r < |s.cells|
    ensures Inv(RejectStep(s, p, r))
  {
    hide CellInv, Inv, Guar, OwesExit, Grows;
    InvParts(s);
    RejectSafe(s.world, s.now, p, s.cells[r]);
    WorldRefl(s.world);
    RejectQueue(s.world, s.now, p, s.cells[r]);
    match RejectTx(s.now, p, s.cells[r])
    case None =>
    case Some(c) => LocalLift(s, RejectStep(s, p, r), p, r, Noting(r, None, LogRejected, None), c);
  }

  lemma RejectQueue(w: World, now: Time, p: Pid, c: Cell)
    requires CellInv(w, now, c)
    ensures RejectTx(now, p, c).Some? ==> Missing(c) && Missing(RejectTx(now, p, c).value)
  {
  }

  lemma SettleStarts(s: State, p: Pid, found: seq<ReqId>)
    requires Inv(s) && ProcOf(s, p).Idle?
    ensures Inv(StartStep(s, Settle(p, found)))
  {
    hide Inv, CellInv;
    InvParts(s);
    if |found| <= SETTLEMENT_BATCH && forall i :: 0 <= i < |found| ==> found[i] < |s.cells| && SettleFinds(s.cells[found[i]]) {
      var todo := seq(|found|, i requires 0 <= i < |found| => Snapshot(found[i], s.cells[found[i]].row.value.request));
      forall i | 0 <= i < |todo| ensures SnapLink(s.world, todo[i].request, s.cells[todo[i].r]) {
        FreshSnap(s.world, s.now, s.cells[found[i]]);
      }
      if todo != [] { AskingFree(s.world, todo); }
      BecomeKeeps(s, p, Settling(todo, Asking));
    }
  }

  lemma FreshSnap(w: World, now: Time, c: Cell)
    requires CellInv(w, now, c) && SettleFinds(c)
    ensures SnapLink(w, c.row.value.request, c)
  {
  }

  lemma StartKeeps(s: State, a: Action)
    requires Inv(s) && (a.Reserve? || a.Settle? || a.Expire? || a.Approve? || a.Reject? || a.Withdraw?)
    ensures Inv(StartStep(s, a))
  {
    hide Inv;
    if ProcOf(s, a.p).Idle? {
      match a
      case Reserve(p) => ReserveKeeps(s, p);
      case Settle(p, found) => SettleStarts(s, p, found);
      case Expire(p, found) => ExpireStarts(s, p, found);
      case Approve(p, r, admin, op) => if op.Ok? && r < |s.cells| { ApproveKeeps(s, p, r, admin); }
      case Reject(p, r, op) => if op.Ok? && r < |s.cells| { RejectKeeps(s, p, r); }
      case Withdraw(p, i) => WithdrawStarts(s, p, i);
    }
  }

  lemma ExpireStarts(s: State, p: Pid, found: seq<ReqId>)
    requires Inv(s) && ProcOf(s, p).Idle?
    ensures Inv(StartStep(s, Expire(p, found)))
  {
    hide Inv;
    if forall i :: 0 <= i < |found| ==> found[i] < |s.cells| && ExpireFinds(s.cells[found[i]], s.now) {
      BecomeKeeps(s, p, Expiring(found, false));
    }
  }

  lemma WithdrawStarts(s: State, p: Pid, i: Intent)
    requires Inv(s) && ProcOf(s, p).Idle?
    ensures Inv(StartStep(s, Withdraw(p, i)))
  {
    hide Inv;
    if OtpPasses(i) && i.wallet.ownerEmail == i.caller && ValidateWithdrawPolicy(i.wallet, i.to, i.amount).Allowed? {
      BecomeKeeps(s, p, Looking(i));
    }
  }

  // ---------- cleanup and the outside world ----------

  lemma AllStable(w: World, w': World, now: Time, now': Time, q: Pid, proc: Proc, cells: seq<Cell>, cells': seq<Cell>)
    requires ProcLink(w, now, q, proc, cells) && Grows(w, w') && now <= now' && |cells| == |cells'|
    requires forall r :: 0 <= r < |cells| ==> Guar(q + 1, cells[r], cells'[r])
    ensures ProcLink(w', now', q, proc, cells')
  {
    hide WorkerLink, NoteLink, SnapLink, OwesExit, Guar, Grows, ExpireLink;
    match proc
    case Worker(r, pc) => WorkerStable(w, w', q + 1, q, pc, cells[r], cells'[r]);
    case Noting(r, before, last, reply) => NoteStable(q + 1, q, before, last, reply, cells[r], cells'[r]);
    case Settling(todo, sp) =>
      forall i | 0 <= i < |todo| ensures SnapLink(w', todo[i].request, cells'[todo[i].r]) {
        SnapStable(w, w', q + 1, todo[i].request, cells[todo[i].r], cells'[todo[i].r]);
      }
      if todo != [] { HeadStable(w, w', todo[0].request, sp); }
    case Expiring(ids, logging) =>
      forall i | 0 <= i < |ids| ensures ExpireLink(now', cells'[ids[i]]) {
        LateStable(q + 1, now, now', cells[ids[i]], cells'[ids[i]]);
      }
      if ids != [] && logging { OwesStable(q + 1, q, LogExpired, cells[ids[0]], cells'[ids[0]]); }
    case _ =>
  }

  lemma LateStable(p: Pid, now: Time, now': Time, c: Cell, c': Cell)
    requires ExpireLink(now, c) && Guar(p, c, c') && now <= now'
    ensures ExpireLink(now', c')
  {
  }

  lemma CleanupKeeps(s: State, targets: set<WalletId>)
    requires Inv(s) && CleanupAllowed(s, targets)
    ensures Inv(DropAll(s, targets))
  {
    hide CellInv, ProcLink, Guar, Grows, Inv;
    InvParts(s);
    var s' := DropAll(s, targets);
    WorldRefl(s.world);
    forall r | 0 <= r < |s'.cells| ensures CellInv(s'.world, s'.now, s'.cells[r]) {
      DropSafe(s.world, s.now, 0, s.cells[r], targets);
    }
    forall q | q in s'.procs ensures ProcLink(s'.world, s'.now, q, s'.procs[q], s'.cells) {
      forall r | 0 <= r < |s.cells| ensures Guar(q + 1, s.cells[r], s'.cells[r]) { DropSafe(s.world, s.now, q + 1, s.cells[r], targets); }
      AllStable(s.world, s'.world, s.now, s'.now, q, s.procs[q], s.cells, s'.cells);
    }
    CleanupQueue(s, targets);
    CleanupSmall(s, targets);
    InvWhole(s');
  }

  lemma CleanupSmall(s: State, targets: set<WalletId>)
    requires KeysInv(s) && WalletsInv(s) && HeldInv(s)
    ensures KeysInv(DropAll(s, targets)) && WalletsInv(DropAll(s, targets)) && HeldInv(DropAll(s, targets))
  {
    var s' := DropAll(s, targets);
    forall r | 0 <= r < |s'.cells| && s'.cells[r].row.Some? ensures s'.cells[r] == s.cells[r] {}
    assert forall p, r :: HeldBy(s, p, r) ==> HeldBy(s', p, r);
  }

  lemma CleanupQueue(s: State, targets: set<WalletId>)
    requires QueueInv(s) && CleanupAllowed(s, targets)
    ensures QueueInv(DropAll(s, targets))
  {
    var s' := DropAll(s, targets);
    forall r | 0 <= r < |s'.cells| ensures TicketInv(s', s'.cells[r], r) {
      assert TicketInv(s, s.cells[r], r);
    }
    forall t | 0 <= t < |s'.resv| && s'.resv[t] == 0 ensures Unreserved(s', t) {
      assert Unreserved(s, t);
    }
  }

  /** A step that touches neither requests nor processes. */
  lemma WorldKeeps(s: State, s': State)
    requires Inv(s) && Grows(s.world, s'.world) && s.now <= s'.now && ChainInv(s'.world.mined)
    requires s'.cells == s.cells && s'.procs == s.procs && s'.tickets == s.tickets && s'.resv == s.resv
    requires s'.nextWallet >= s.nextWallet && s.wallets.Keys <= s'.wallets.Keys
    requires forall w :: w in s'.wallets ==> w < s'.nextWallet
    ensures Inv(s')
  {
    hide CellInv, ProcLink, Guar, Grows, Inv, ChainInv;
    InvParts(s);
    forall r | 0 <= r < |s'.cells| ensures CellInv(s'.world, s'.now, s'.cells[r]) {
      CellGrows(s.world, s'.world, s.now, s'.now, s.cells[r]);
    }
    forall q | q in s'.procs ensures ProcLink(s'.world, s'.now, q, s'.procs[q], s'.cells) {
      forall r | 0 <= r < |s.cells| ensures Guar(q + 1, s.cells[r], s.cells[r]) { GuarRefl(q + 1, s.cells[r]); }
      AllStable(s.world, s'.world, s.now, s'.now, q, s.procs[q], s.cells, s'.cells);
    }
    assert QueueInv(s') by {
      forall r | 0 <= r < |s'.cells| ensures TicketInv(s', s'.cells[r], r) { assert TicketInv(s, s.cells[r], r); }
      forall t | 0 <= t < |s'.resv| && s'.resv[t] == 0 ensures Unreserved(s', t) { assert Unreserved(s, t); }
    }
    assert HeldInv(s');
    InvWhole(s');
  }

  lemma WorldStepKeeps(s: State, a: Action)
    requires Inv(s) && (a.Tick? || a.NewTransfer? || a.Progress? || a.Broadcast? || a.Mine?)
    ensures Inv(WorldStep(s, a))
  {
    hide Inv;
    InvParts(s);
    var s' := WorldStep(s, a);
    assert ChainInv(s'.world.mined) by {
      if a.Mine? && s'.world.mined != s.world.mined { ChainGrows(s.world.mined, Mined(a.tx, a.ok)); }
    }
    WorldKeeps(s, s');
  }

  lemma ChainGrows(mined: seq<Mined>, m: Mined)
    requires ChainInv(mined) && m.tx.nonce == NonceOf(mined, m.tx.from)
    ensures ChainInv(mined + [m])
  {
    var more := mined + [m];
    forall i | 0 <= i < |more| ensures more[i].tx.nonce == NonceOf(more[..i], more[i].tx.from) {
      if i < |mined| { assert more[..i] == mined[..i]; } else { assert more[..i] == mined; }
    }
  }

  // ---------- all steps, all runs ----------

  lemma AdvanceKeeps(s: State, p: Pid, op: Op)
    requires Inv(s)
    ensures Inv(AdvanceStep(s, p, op))
  {
    hide Inv;
    var proc := ProcOf(s, p);
    match proc
    case Idle =>
    case Worker(r, pc) => WorkAdvances(s, p, op, r, pc);
    case Noting(r, before, last, reply) => NoteAdvances(s, p, op, r, before, last, reply);
    case Settling(todo, sp) => if todo == [] { BecomeKeeps(s, p, Idle); } else { SettleAdvances(s, p, op, todo, sp); }
    case Expiring(ids, logging) => if ids == [] { BecomeKeeps(s, p, Idle); } else { ExpireAdvances(s, p, op, ids, logging); }
    case Looking(_) => WithdrawAdvances(s, p, op);
    case Inserting(_) => WithdrawAdvances(s, p, op);
    case Conflicted(_) => WithdrawAdvances(s, p, op);
  }

  lemma StepKeeps(s: State, a: Action)
    requires Inv(s)
    ensures Inv(Step(s, a))
  {
    hide Inv, AdvanceStep, StartStep, WorldStep;
    match a
    case Advance(p, op) => AdvanceKeeps(s, p, op);
    case CreateWallet(_) => InvParts(s); WorldRefl(s.world); WorldKeeps(s, Step(s, a));
    case Configure(_, _, _) => InvParts(s); WorldRefl(s.world); WorldKeeps(s, Step(s, a));
    case Cleanup(targets) => if CleanupAllowed(s, targets) { CleanupKeeps(s, targets); }
    case Tick(_) => WorldStepKeeps(s, a);
    case NewTransfer(_, _) => WorldStepKeeps(s, a);
    case Progress(_, _) => WorldStepKeeps(s, a);
    case Broadcast(_) => WorldStepKeeps(s, a);
    case Mine(_, _) => WorldStepKeeps(s, a);
    case _ => StartKeeps(s, a);
  }

  lemma {:induction false} RunKeeps(s: State, acts: seq<Action>)
    requires Inv(s)
    ensures Inv(Run(s, acts))
  {
    hide Inv;
    if |acts| > 0 {
      RunLast(s, acts);
      RunKeeps(s, acts[..|acts| - 1]);
      StepKeeps(Run(s, acts[..|acts| - 1]), acts[|acts| - 1]);
    }
  }

  lemma Reachable(acts: seq<Action>)
    ensures Inv(Run(Initial, acts))
  {
    RunKeeps(Initial, acts);
  }
}

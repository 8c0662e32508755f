/** The invariant of the whole pipeline, and its proof over every run. */
module RunInvariant {
  import opened Domain
  import opened Pipeline
  import opened CellInvariant
  import opened LocalSteps
  import opened OtherSteps

  predicate CellsInv(s: State) {
    forall r :: 0 <= r < |s.cells| ==> CellInv(s.world, s.now, s.cells[r])
  }

  predicate ProcsInv(s: State) {
    forall p :: p in s.procs ==> ProcLink(s.world, s.now, p, s.procs[p], s.cells)
  }

  /** How often a job has been reserved, read off its row. */
  function Rounds(j: Job): nat { j.attemptCount + if Reservable(j) then 0 else 1 }

  predicate TicketInv(s: State, c: Cell, r: ReqId) {
    !Missing(c) ==>
      && Ticket(c) < |s.tickets| && s.tickets[Ticket(c)] == r
      && Ticket(c) < |s.resv| && s.resv[Ticket(c)] == Rounds(c.row.value.queue.value)
  }

  predicate Unreserved(s: State, t: nat)
    requires t < |s.tickets|
  {
    && s.tickets[t] < |s.cells|
    && var c := s.cells[s.tickets[t]];
       !Missing(c) && Ticket(c) == t && c.row.value.queue.value.status.WAITING?
  }

  predicate QueueInv(s: State) {
    && |s.tickets| == |s.resv|
    && (forall r :: 0 <= r < |s.cells| ==> TicketInv(s, s.cells[r], r))
    && (forall t :: 0 <= t < |s.resv| ==> s.resv[t] <= MAX_ATTEMPTS)
    && (forall t :: 0 <= t < |s.resv| && s.resv[t] == 0 ==> Unreserved(s, t))
    && (forall t, u :: 0 <= t < u < |s.resv| && s.resv[t] == 0 ==> s.resv[u] == 0)
  }

  predicate KeysInv(s: State) {
    forall r1, r2 :: 0 <= r1 < r2 < |s.cells| && s.cells[r1].row.Some? && s.cells[r2].row.Some?
                     && s.cells[r1].row.value.request.key.Some?
                     ==> s.cells[r1].row.value.request.key != s.cells[r2].row.value.request.key
  }

  predicate WalletsInv(s: State) {
    && (forall w :: w in s.wallets ==> w < s.nextWallet)
    && (forall r :: 0 <= r < |s.cells| && s.cells[r].row.Some? ==> s.cells[r].row.value.request.walletId in s.wallets)
  }

  /** An attempt that has begun and is not yet settled in the queue row. */
  predicate Unfinished(c: Cell) {
    && !Missing(c)
    && var q, j := c.row.value.request, c.row.value.queue.value;
       j.status.RESERVED? || j.status.RUNNING? || (q.retryCount == j.attemptCount + 1 && !j.status.DEAD?)
  }

  predicate HeldBy(s: State, p: Pid, r: ReqId) { ProcOf(s, p).Worker? && ProcOf(s, p).r == r }

  /** Unless a poll died on it, a job that is not finished is in the hands of the worker named on its row. */
  predicate HeldInv(s: State) {
    forall r :: 0 <= r < |s.cells| && Unfinished(s.cells[r]) && s.cells[r].hist.crashes == 0 ==>
      var j := s.cells[r].row.value.queue.value;
      j.workerId.Some? && HeldBy(s, j.workerId.value, r)
  }

  predicate ChainInv(mined: seq<Mined>) {
    forall i :: 0 <= i < |mined| ==> mined[i].tx.nonce == NonceOf(mined[..i], mined[i].tx.from)
  }

  predicate Inv(s: State) {
    && CellsInv(s) && ProcsInv(s) && QueueInv(s) && KeysInv(s) && WalletsInv(s) && HeldInv(s) && ChainInv(s.world.mined)
  }

  // ---------- one request and one process change ----------

  predicate SameQueue(c: Cell, c': Cell) {
    && (Missing(c) ==> Missing(c'))
    && (!Missing(c) && Missing(c') ==> !InFlight(c.row.value))
    && (!Missing(c) && !Missing(c') ==>
          && Ticket(c') == Ticket(c)
          && Rounds(c'.row.value.queue.value) == Rounds(c.row.value.queue.value)
          && (c.row.value.queue.value.status.WAITING? ==> c'.row.value.queue.value.status.WAITING?))
  }

  /** What the step leaves unfinished is in the hands of the process that made it, or was there before. */
  predicate HandsOn(p: Pid, proc: Proc, r: ReqId, before: Proc, c: Cell, c': Cell) {
    Unfinished(c') && c'.hist.crashes == 0 ==>
      || (proc.Worker? && proc.r == r && c'.row.value.queue.value.workerId == Some(p))
      || (!before.Worker? && Unfinished(c) && c.hist.crashes == 0 && c.row.value.queue.value.workerId == c'.row.value.queue.value.workerId)
  }

  predicate Update(s: State, s': State, p: Pid, r: ReqId, proc: Proc, c: Cell) {
    && r < |s.cells| && s'.cells == s.cells[r := c] && s'.procs == s.procs[p := proc] && s'.now == s.now
    && s'.wallets == s.wallets && s'.nextWallet == s.nextWallet
  }

  lemma CellsLift(s: State, s': State, p: Pid, r: ReqId, proc: Proc, c: Cell)
    requires CellsInv(s) && Update(s, s', p, r, proc, c) && Grows(s.world, s'.world) && CellInv(s'.world, s'.now, c)
    ensures CellsInv(s')
  {
    forall i | 0 <= i < |s'.cells| && i != r ensures CellInv(s'.world, s'.now, s'.cells[i]) {
      CellGrows(s.world, s'.world, s.now, s'.now, s.cells[i]);
    }
  }

  lemma GuarRefl(p: Pid, c: Cell)
    ensures Guar(p, c, c)
  {
  }

  lemma LinkStable(s: State, s': State, p: Pid, r: ReqId, proc: Proc, c: Cell, q: Pid)
    requires Update(s, s', p, r, proc, c) && Grows(s.world, s'.world) && Guar(p, s.cells[r], c)
    requires q in s.procs && q != p && ProcLink(s.world, s.now, q, s.procs[q], s.cells)
    ensures ProcLink(s'.world, s'.now, q, s.procs[q], s'.cells)
  {
    hide WorkerLink, NoteLink, SnapLink, OwesExit, Guar, Grows;
    match s.procs[q]
    case Worker(r1, pc) =>
      GuarRefl(p, s.cells[r1]);
      WorkerStable(s.world, s'.world, p, q, pc, s.cells[r1], s'.cells[r1]);
    case Noting(r1, before, last, reply) =>
      GuarRefl(p, s.cells[r1]);
      NoteStable(p, q, before, last, reply, s.cells[r1], s'.cells[r1]);
    case Settling(todo, sp) =>
      SnapsStable(s, s', p, r, proc, c, todo);
      if todo != [] { HeadStable(s.world, s'.world, todo[0].request, sp); }
    case Expiring(ids, logging) =>
      IdsStable(s, s', p, r, proc, c, ids);
      if ids != [] && logging {
        GuarRefl(p, s.cells[ids[0]]);
        OwesStable(p, q, LogExpired, s.cells[ids[0]], s'.cells[ids[0]]);
      }
    case _ =>
  }

  lemma HeadStable(w: World, w': World, snap: Request, sp: SettlePc)
    requires SettleHead(w, snap, sp) && Grows(w, w')
    ensures SettleHead(w', snap, sp)
  {
  }

  lemma SnapsStable(s: State, s': State, p: Pid, r: ReqId, proc: Proc, c: Cell, todo: seq<Snapshot>)
    requires Update(s, s', p, r, proc, c) && Grows(s.world, s'.world) && Guar(p, s.cells[r], c)
    requires forall i :: 0 <= i < |todo| ==> todo[i].r < |s.cells| && SnapLink(s.world, todo[i].request, s.cells[todo[i].r])
    ensures forall i :: 0 <= i < |todo| ==> todo[i].r < |s'.cells| && SnapLink(s'.world, todo[i].request, s'.cells[todo[i].r])
  {
    hide SnapLink, Guar, Grows;
    forall i | 0 <= i < |todo| ensures todo[i].r < |s'.cells| && SnapLink(s'.world, todo[i].request, s'.cells[todo[i].r]) {
      GuarRefl(p, s.cells[todo[i].r]);
      SnapStable(s.world, s'.world, p, todo[i].request, s.cells[todo[i].r], s'.cells[todo[i].r]);
    }
  }

  lemma IdsStable(s: State, s': State, p: Pid, r: ReqId, proc: Proc, c: Cell, ids: seq<ReqId>)
    requires Update(s, s', p, r, proc, c) && Guar(p, s.cells[r], c)
    requires forall i :: 0 <= i < |ids| ==> ids[i] < |s.cells| && ExpireLink(s.now, s.cells[ids[i]])
    ensures forall i :: 0 <= i < |ids| ==> ids[i] < |s'.cells| && ExpireLink(s'.now, s'.cells[ids[i]])
  {
  }

  lemma ProcsLift(s: State, s': State, p: Pid, r: ReqId, proc: Proc, c: Cell)
    requires ProcsInv(s) && Update(s, s', p, r, proc, c) && Grows(s.world, s'.world) && Guar(p, s.cells[r], c)
    requires ProcLink(s'.world, s'.now, p, proc, s'.cells)
    ensures ProcsInv(s')
  {
    hide ProcLink, Guar, Grows;
    forall q | q in s'.procs ensures ProcLink(s'.world, s'.now, q, s'.procs[q], s'.cells) {
      if q != p { LinkStable(s, s', p, r, proc, c, q); }
    }
  }

  lemma QueueLift(s: State, s': State, p: Pid, r: ReqId, proc: Proc, c: Cell)
    requires QueueInv(s) && Update(s, s', p, r, proc, c) && SameQueue(s.cells[r], c)
    requires s'.tickets == s.tickets && s'.resv == s.resv
    ensures QueueInv(s')
  {
    forall t | 0 <= t < |s.resv| && s.resv[t] == 0 ensures Unreserved(s', t) {
      assert Unreserved(s, t);
    }
    forall i | 0 <= i < |s'.cells| ensures TicketInv(s', s'.cells[i], i) {
      assert TicketInv(s, s.cells[i], i);
    }
  }

  lemma SmallLifts(s: State, s': State, p: Pid, r: ReqId, proc: Proc, c: Cell)
    requires KeysInv(s) && WalletsInv(s) && Update(s, s', p, r, proc, c) && Guar(p, s.cells[r], c)
    ensures KeysInv(s') && WalletsInv(s')
  {
  }

  lemma HeldLift(s: State, s': State, p: Pid, r: ReqId, proc: Proc, c: Cell)
    requires HeldInv(s) && Update(s, s', p, r, proc, c)
    requires HandsOn(p, proc, r, ProcOf(s, p), s.cells[r], c)
    requires ProcOf(s, p).Worker? ==> ProcOf(s, p).r == r
    ensures HeldInv(s')
  {
  }

  lemma LocalLift(s: State, s': State, p: Pid, r: ReqId, proc: Proc, c: Cell)
    requires Inv(s) && Update(s, s', p, r, proc, c)
    requires s'.tickets == s.tickets && s'.resv == s.resv && s'.world.mined == s.world.mined
    requires Grows(s.world, s'.world) && CellInv(s'.world, s'.now, c) && Guar(p, s.cells[r], c)
    requires ProcLink(s'.world, s'.now, p, proc, s'.cells)
    requires SameQueue(s.cells[r], c)
    requires HandsOn(p, proc, r, ProcOf(s, p), s.cells[r], c)
    requires ProcOf(s, p).Worker? ==> ProcOf(s, p).r == r
    ensures Inv(s')
  {
    hide CellsInv, ProcsInv, QueueInv, KeysInv, WalletsInv, HeldInv, ChainInv, CellInv, Guar, Grows, ProcLink, SameQueue, HandsOn;
    CellsLift(s, s', p, r, proc, c);
    ProcsLift(s, s', p, r, proc, c);
    QueueLift(s, s', p, r, proc, c);
    SmallLifts(s, s', p, r, proc, c);
    HeldLift(s, s', p, r, proc, c);
  }
}

/** Idempotent withdraw calls, and the cleanup of wallets, over every run. */
module WithdrawTheorems {
  import opened Domain
  import opened Pipeline
  import opened CellInvariant
  import opened RunInvariant
  import opened StepInvariant
  import opened Guarantees
  import opened ExecutionTheorems
  import opened ApprovalTheorems

  // ---------- one request per key ----------

  /** Interleaved calls never leave two requests with one key in the table. */
  lemma OneRequestPerKey(acts: seq<Action>, r1: ReqId, r2: ReqId, key: string)
    requires r1 < |Run(Initial, acts).cells| && r2 < |Run(Initial, acts).cells|
    requires HasKey(Run(Initial, acts).cells[r1], key) && HasKey(Run(Initial, acts).cells[r2], key)
    ensures r1 == r2
  {
    Reachable(acts);
    InvParts(Run(Initial, acts));
  }

  /** A withdraw call with this key was answered with request r. */
  predicate Answered(s: State, r: ReqId, key: string) {
    r < |s.cells| && exists i :: 0 <= i < |s.cells[r].hist.answers| && s.cells[r].hist.answers[i].key == Some(key)
  }

  /** All calls with one key that are answered are answered with the same request, as long as none is cleaned up. */
  lemma AnswersAgree(acts: seq<Action>, r1: ReqId, r2: ReqId, key: string)
    requires Answered(Run(Initial, acts), r1, key) && Answered(Run(Initial, acts), r2, key)
    requires Run(Initial, acts).cells[r1].row.Some? && Run(Initial, acts).cells[r2].row.Some?
    ensures r1 == r2
  {
    hide Run;
    AnsweredHasKey(acts, r1, key);
    AnsweredHasKey(acts, r2, key);
    OneRequestPerKey(acts, r1, r2, key);
  }

  lemma AnsweredHasKey(acts: seq<Action>, r: ReqId, key: string)
    requires Answered(Run(Initial, acts), r, key)
    ensures Run(Initial, acts).cells[r].hist.intent.key == Some(key)
    ensures Run(Initial, acts).cells[r].row.Some? ==> HasKey(Run(Initial, acts).cells[r], key)
  {
    hide Run;
    CellAt(acts, r);
  }

  /** When a key is used on one wallet only, every call with it is answered with a request of that wallet. */
  lemma AnsweredOnOwnWallet(acts: seq<Action>, r: ReqId, key: string, walletId: WalletId)
    requires Answered(Run(Initial, acts), r, key)
    requires forall k :: 0 <= k < |acts| && acts[k].Withdraw? && acts[k].intent.key == Some(key) ==> acts[k].intent.walletId == walletId
    ensures Run(Initial, acts).cells[r].hist.intent.walletId == walletId
  {
    hide Run;
    var i := Run(Initial, acts).cells[r].hist.intent;
    AnsweredHasKey(acts, r, key);
    CreatedByCheckedCall(acts, r);
    var k: nat :| AskedAt(acts, k, i);
    assert acts[k].Withdraw? && acts[k].intent == i by { AskedIs(acts, k, i); }
  }

  lemma AskedIs(acts: seq<Action>, k: nat, i: Intent)
    requires AskedAt(acts, k, i)
    ensures k < |acts| && acts[k].Withdraw? && acts[k].intent == i
  {
  }

  // ---------- calls that lose the race still succeed ----------

  predicate NoCleanup(acts: seq<Action>) {
    forall k :: 0 <= k < |acts| ==> !acts[k].Cleanup?
  }

  lemma RowStays(s: State, a: Action, r: ReqId)
    requires Inv(s) && !a.Cleanup? && r < |s.cells| && s.cells[r].row.Some?
    ensures r < |Step(s, a).cells| && Step(s, a).cells[r].row.Some?
    ensures Step(s, a).cells[r].row.value.request.key == s.cells[r].row.value.request.key
  {
    hide WorkStep, NoteStep, SettleStep, ExpireStep, Inv, ApproveTx, RejectTx;
    StepGuards(s, a, r);
    if a.Advance? { AdvanceRowStays(s, a.p, a.op, r); }
    if a.Approve? && a.r < |s.cells| { ApproveRowStays(s.now, a.p, a.admin, s.cells[a.r], |s.tickets|); }
    if a.Reject? && a.r < |s.cells| { RejectRowStays(s.now, a.p, s.cells[a.r]); }
  }

  lemma AdvanceRowStays(s: State, p: Pid, op: Op, r: ReqId)
    requires r < |s.cells| && s.cells[r].row.Some?
    ensures r < |AdvanceStep(s, p, op).cells| && AdvanceStep(s, p, op).cells[r].row.Some?
  {
    hide WorkStep;
    if ProcOf(s, p).Worker? && ProcOf(s, p).r == r { WorkRowStays(s.world, s.now, r, ProcOf(s, p).pc, s.cells[r], op); }
  }

  lemma WorkRowStays(w: World, now: Time, r: ReqId, pc: WorkerPc, c: Cell, op: Op)
    requires c.row.Some?
    ensures WorkStep(w, now, r, pc, c, op).cell.row.Some?
  {
  }

  lemma ApproveRowStays(now: Time, p: Pid, admin: nat, c: Cell, ticket: nat)
    ensures match ApproveTx(now, p, admin, c, ticket)
            case ApprovalAdded(c') => c'.row.Some?
            case ApprovedAndQueued(c') => c'.row.Some?
            case _ => true
  {
  }

  lemma RejectRowStays(now: Time, p: Pid, c: Cell)
    ensures RejectTx(now, p, c).Some? ==> RejectTx(now, p, c).value.row.Some?
  {
  }

  lemma WalletStays(s: State, a: Action, w: WalletId)
    requires !a.Cleanup? && w in s.wallets
    ensures w in Step(s, a).wallets
  {
    hide WorkStep, NoteStep, SettleStep, ExpireStep, ApproveTx, RejectTx;
  }

  /** Without cleanups, rows and wallets stay. */
  lemma {:induction false} RowsStay(acts: seq<Action>, more: seq<Action>)
    requires NoCleanup(more)
    ensures |Run(Initial, acts).cells| <= |Run(Initial, acts + more).cells|
    ensures forall r :: 0 <= r < |Run(Initial, acts).cells| && Run(Initial, acts).cells[r].row.Some? ==>
              && Run(Initial, acts + more).cells[r].row.Some?
              && Run(Initial, acts + more).cells[r].row.value.request.key == Run(Initial, acts).cells[r].row.value.request.key
    ensures forall w :: w in Run(Initial, acts).wallets ==> w in Run(Initial, acts + more).wallets
  {
    hide Run, Step, Inv;
    if |more| == 0 {
      assert acts + more == acts;
    } else {
      var m, a := more[..|more| - 1], more[|more| - 1];
      RowsStay(acts, m);
      var s := Run(Initial, acts + m);
      Reachable(acts + m);
      assert acts + more == acts + m + [a];
      RunSnoc(Initial, acts + m, a);
      NewCellAsked(s, a);
      forall r | 0 <= r < |s.cells| && s.cells[r].row.Some?
        ensures Step(s, a).cells[r].row.Some? && Step(s, a).cells[r].row.value.request.key == s.cells[r].row.value.request.key
      {
        RowStays(s, a, r);
      }
      forall w | w in s.wallets ensures w in Step(s, a).wallets { WalletStays(s, a, w); }
    }
  }

  /** The request whose key made an insert fail is there when the call looks for it. */
  predicate ConflictsBacked(s: State, p: Pid) {
    ProcOf(s, p).Conflicted? ==>
      Keyed(ProcOf(s, p).intent) && exists r :: 0 <= r < |s.cells| && HasKey(s.cells[r], ProcOf(s, p).intent.key.value)
  }

  lemma BackedStep(s: State, a: Action, p: Pid)
    requires Inv(s) && !a.Cleanup? && ConflictsBacked(s, p)
    ensures ConflictsBacked(Step(s, a), p)
  {
    hide Step, Inv;
    var s' := Step(s, a);
    if ProcOf(s', p).Conflicted? {
      var i := ProcOf(s', p).intent;
      NewConflict(s, a, p);
      var r :| 0 <= r < |s.cells| && HasKey(s.cells[r], i.key.value);
      RowStays(s, a, r);
      assert HasKey(s'.cells[r], i.key.value);
    }
  }

  lemma AdvanceConflict(s: State, p: Pid, op: Op, q: Pid)
    requires ConflictsBacked(s, q) && ProcOf(AdvanceStep(s, p, op), q).Conflicted?
    ensures
      var i := ProcOf(AdvanceStep(s, p, op), q).intent;
      Keyed(i) && exists r :: 0 <= r < |s.cells| && HasKey(s.cells[r], i.key.value)
  {
    hide WorkStep;
    if ProcOf(s, p).Worker? { WorkAsksNothing(s, p, op); }
  }

  lemma StartConflict(s: State, a: Action, q: Pid)
    requires a.Reserve? || a.Settle? || a.Expire? || a.Approve? || a.Reject? || a.Withdraw?
    ensures ProcOf(StartStep(s, a), q).Conflicted? ==> ProcOf(StartStep(s, a), q) == ProcOf(s, q)
  {
  }

  lemma NewConflict(s: State, a: Action, p: Pid)
    requires ConflictsBacked(s, p) && ProcOf(Step(s, a), p).Conflicted?
    ensures
      var i := ProcOf(Step(s, a), p).intent;
      Keyed(i) && exists r :: 0 <= r < |s.cells| && HasKey(s.cells[r], i.key.value)
  {
    hide AdvanceStep, StartStep;
    if a.Advance? { AdvanceConflict(s, a.p, a.op, p); }
    else if a.Reserve? || a.Settle? || a.Expire? || a.Approve? || a.Reject? || a.Withdraw? { StartConflict(s, a, p); }
  }

  lemma {:induction false} AllConflictsBacked(acts: seq<Action>, p: Pid)
    requires NoCleanup(acts)
    ensures ConflictsBacked(Run(Initial, acts), p)
  {
    hide Step, Inv, ConflictsBacked;
    if |acts| > 0 {
      RunLast(Initial, acts);
      var before := acts[..|acts| - 1];
      AllConflictsBacked(before, p);
      Reachable(before);
      BackedStep(Run(Initial, before), acts[|acts| - 1], p);
    } else {
      assert ConflictsBacked(Initial, p) by { NoConflictYet(p); }
    }
  }

  lemma NoConflictYet(p: Pid)
    ensures ConflictsBacked(Initial, p)
  {
  }

  /** Without cleanups, a call that lost the race for its key is answered with the winner's request by its next
    * statement, unless that statement itself fails. */
  lemma LoserIsAnswered(acts: seq<Action>, p: Pid)
    requires NoCleanup(acts) && ProcOf(Run(Initial, acts), p).Conflicted?
    ensures
      var i := ProcOf(Run(Initial, acts), p).intent;
      i.key.Some? && exists r: nat :: r < |Run(Initial, acts).cells| && HasKey(Run(Initial, acts).cells[r], i.key.value)
                                      && Answered(Step(Run(Initial, acts), Advance(p, Ok)), r, i.key.value)
  {
    hide Run;
    var s := Run(Initial, acts);
    AllConflictsBacked(acts, p);
    var i := ProcOf(s, p).intent;
    var found := FindKey(s.cells, i.key.value, None);
    var s' := Step(s, Advance(p, Ok));
    var answers := s'.cells[found.value].hist.answers;
    assert answers[|answers| - 1] == Answer(i.key, i.walletId);
    assert Answered(s', found.value, i.key.value);
  }

  // ---------- where a key does not help ----------

  /** A blank key is stored and must be unique, but the call that runs into it is not answered: its insert succeeds
    * exactly when no request in the table has a blank key, and otherwise the call fails and leaves no trace. */
  lemma BlankKey(s: State, p: Pid, i: Intent)
    requires ProcOf(s, p) == Inserting(i) && i.key == Some("") && i.walletId in s.wallets
    ensures
      var s' := Step(s, Advance(p, Ok));
      if exists r :: 0 <= r < |s.cells| && HasKey(s.cells[r], "") then s' == Become(s, p, Idle)
      else |s'.cells| == |s.cells| + 1 && HasKey(s'.cells[|s.cells|], "")
  {
  }

  /** A key in use on another wallet: the call misses it in its lookup, which is by wallet, runs into it at the insert,
    * and is answered with the other wallet's request. */
  lemma OtherWalletsRequest(s: State, p: Pid, i: Intent, r: ReqId)
    requires Inv(s) && ProcOf(s, p) == Looking(i) && Keyed(i) && i.walletId in s.wallets
    requires i.wallet.walletType.SSS? ==> SssAccepted(i)
    requires r < |s.cells| && HasKey(s.cells[r], i.key.value) && s.cells[r].row.value.request.walletId != i.walletId
    ensures
      var s' := Step(Step(Step(s, Advance(p, Ok)), Advance(p, Ok)), Advance(p, Ok));
      r < |s'.cells| && s'.cells[r].hist.answers == s.cells[r].hist.answers + [Answer(i.key, i.walletId)]
  {
    InvParts(s);
    var key := i.key.value;
    if FindKey(s.cells, key, Some(i.walletId)).Some? {
      OnlyKey(s, FindKey(s.cells, key, Some(i.walletId)).value, r, key);
    }
    OnlyKey(s, FindKey(s.cells, key, None).value, r, key);
    var s1 := Step(s, Advance(p, Ok));
    assert s1 == Become(s, p, Inserting(i));
    var s2 := Step(s1, Advance(p, Ok));
    assert s2.cells == s.cells && ProcOf(s2, p) == Conflicted(i);
  }

  lemma OnlyKey(s: State, r1: ReqId, r2: ReqId, key: string)
    requires KeysInv(s) && r1 < |s.cells| && r2 < |s.cells| && HasKey(s.cells[r1], key) && HasKey(s.cells[r2], key)
    ensures r1 == r2
  {
  }

  // ---------- cleanup ----------

  /** What a cleanup deletes is settled: no statement of a worker will ever look for it and miss it. */
  lemma CleanupSparesLiveWork(acts: seq<Action>, targets: set<WalletId>, r: ReqId)
    requires r < |Run(Initial, acts).cells| && Run(Initial, acts).cells[r].row.Some?
    requires Step(Run(Initial, acts), Cleanup(targets)).cells[r].row.None?
    ensures
      var s, row := Run(Initial, acts), Run(Initial, acts).cells[r].row.value;
      && IsFinal(row.request.status)
      && (row.queue.Some? ==> row.queue.value.status.SUCCEEDED? || row.queue.value.status.DEAD?)
      && row.request.walletId in targets && row.request.walletId in s.wallets
      && s.wallets[row.request.walletId].ownerEmail != "test@test.com"
  {
  }

  /** A cleanup changes nothing of a protected owner, and either takes all its targets or changes nothing. */
  lemma CleanupAllOrNothing(acts: seq<Action>, targets: set<WalletId>)
    ensures
      var s, s' := Run(Initial, acts), Step(Run(Initial, acts), Cleanup(targets));
      && (s' == s || (s'.wallets.Keys !! targets && s'.wallets.Keys + targets == s.wallets.Keys))
      && (forall w :: w in s.wallets && (w !in targets || s.wallets[w].ownerEmail == "test@test.com")
                      ==> w in s'.wallets && s'.wallets[w] == s.wallets[w])
      && |s'.cells| == |s.cells|
      && (forall r :: 0 <= r < |s.cells| && s.cells[r].row.Some? && s.cells[r].row.value.request.walletId in s'.wallets
                      ==> s'.cells[r] == s.cells[r])
  {
    hide Run;
    var s := Run(Initial, acts);
    if !CleanupAllowed(s, targets) { assert Step(s, Cleanup(targets)) == s; }
  }

  /** The stages of a poll from the reservation up to the write of the outcome. */
  predicate BeforeSuccess(pc: WorkerPc) { !pc.Succeeded? && !pc.Caught? && !pc.Counted? && !pc.Reread? }

  /** The worker's branch for a missing request cannot be taken, and no cleanup pulls a job out of a poll's hands
    * before it is marked SUCCEEDED. */
  lemma RequestAlwaysFound(acts: seq<Action>, p: Pid)
    requires ProcOf(Run(Initial, acts), p).Worker? && BeforeSuccess(ProcOf(Run(Initial, acts), p).pc)
    ensures
      var s := Run(Initial, acts);
      && ProcOf(s, p).r < |s.cells| && !Missing(s.cells[ProcOf(s, p).r])
      && forall targets :: !Missing(Step(s, Cleanup(targets)).cells[ProcOf(s, p).r])
  {
    hide Run;
    var s := Run(Initial, acts);
    Reachable(acts);
    InvParts(s);
    var r := ProcOf(s, p).r;
    assert ProcLink(s.world, s.now, p, s.procs[p], s.cells);
    HeldInFlight(s.world, p, ProcOf(s, p).pc, s.cells[r]);
    forall targets ensures !Missing(Step(s, Cleanup(targets)).cells[r]) {
      if CleanupAllowed(s, targets) { assert !OnWallet(s.cells[r], targets); }
    }
  }

  lemma HeldInFlight(w: World, p: Pid, pc: WorkerPc, c: Cell)
    requires WorkerLink(w, p, pc, c) && BeforeSuccess(pc)
    ensures !Missing(c) && InFlight(c.row.value)
  {
  }

  // ---------- when a cleanup can pull a request away from a poll ----------

  /** What the rows say about a request that can be deleted: it is settled, its job is SUCCEEDED, nothing else is in flight
    * on its wallet, and the wallet's owner is not protected. */
  predicate Deletable(s: State, r: ReqId)
    requires r < |s.cells| && s.cells[r].row.Some? && s.cells[r].row.value.request.walletId in s.wallets
  {
    var q, job := s.cells[r].row.value.request, s.cells[r].row.value.queue;
    && (q.status.EXECUTED? || q.status.FAILED?) && job.Some? && job.value.status.SUCCEEDED?
    && s.wallets[q.walletId].ownerEmail != "test@test.com"
    && forall r' :: 0 <= r' < |s.cells| && s.cells[r'].row.Some? && s.cells[r'].row.value.request.walletId == q.walletId ==>
         && s.cells[r'].row.value.request.status in {EXECUTED, FAILED, REJECTED, EXPIRED}
         && (s.cells[r'].row.value.queue.Some? ==> s.cells[r'].row.value.queue.value.status in {SUCCEEDED, DEAD})
  }

  predicate Deletes(s: State, targets: set<WalletId>, r: ReqId)
    requires r < |s.cells|
  {
    r < |Step(s, Cleanup(targets)).cells| && Step(s, Cleanup(targets)).cells[r].row.None?
  }

  /** While a poll works on a request, some cleanup can delete it if and only if its rows say so. */
  lemma CleanupTakesIff(acts: seq<Action>, p: Pid, r: ReqId)
    requires HeldBy(Run(Initial, acts), p, r) && r < |Run(Initial, acts).cells| && Run(Initial, acts).cells[r].row.Some?
    ensures Run(Initial, acts).cells[r].row.value.request.walletId in Run(Initial, acts).wallets
    ensures (exists targets: set<WalletId> :: Deletes(Run(Initial, acts), targets, r)) <==> Deletable(Run(Initial, acts), r)
  {
    hide Run, CellInv, Deletable;
    var s := Run(Initial, acts);
    Reachable(acts);
    InvParts(s);
    assert ProcLink(s.world, s.now, p, s.procs[p], s.cells);
    CellAt(acts, r);
    HeldStatus(s.world, s.now, p, ProcOf(s, p).pc, s.cells[r]);
    var own := {s.cells[r].row.value.request.walletId};
    if Deletable(s, r) { assert Deletes(s, own, r) by { DeletableGoes(s, r); } }
    if exists targets: set<WalletId> :: Deletes(s, targets, r) {
      var targets: set<WalletId> :| Deletes(s, targets, r);
      DeletedWasDeletable(s, targets, r);
    }
  }

  lemma DeletableGoes(s: State, r: ReqId)
    requires r < |s.cells| && s.cells[r].row.Some? && s.cells[r].row.value.request.walletId in s.wallets && Deletable(s, r)
    ensures Deletes(s, {s.cells[r].row.value.request.walletId}, r)
  {
  }

  lemma DeletedWasDeletable(s: State, targets: set<WalletId>, r: ReqId)
    requires r < |s.cells| && s.cells[r].row.Some? && s.cells[r].row.value.request.walletId in s.wallets && Deletes(s, targets, r)
    requires !Missing(s.cells[r]) && !s.cells[r].row.value.queue.value.status.DEAD?
    requires s.cells[r].row.value.request.status in {QUEUED, PROCESSING, EXECUTED, FAILED}
    ensures Deletable(s, r)
  {
    assert CleanupAllowed(s, targets) && OnWallet(s.cells[r], targets);
    forall r' | 0 <= r' < |s.cells| && OnWallet(s.cells[r'], {s.cells[r].row.value.request.walletId}) ensures !InFlight(s.cells[r'].row.value) {
      assert OnWallet(s.cells[r'], targets);
    }
  }

  lemma HeldStatus(w: World, now: Time, p: Pid, pc: WorkerPc, c: Cell)
    requires CellInv(w, now, c) && WorkerLink(w, p, pc, c) && c.row.Some?
    ensures !Missing(c) && !c.row.value.queue.value.status.DEAD? && c.row.value.request.status in {QUEUED, PROCESSING, EXECUTED, FAILED}
  {
  }
}

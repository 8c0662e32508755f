/** apps/api/src/wallet/mpc-settlement.service.ts: one settlement poll, over the row snapshots that its query
  * returned, with final writes that no status guards. */
module SettlementService {
  import opened Domain
  import opened Pipeline
  import opened CellInvariant
  import opened RunInvariant
  import opened StepInvariant
  import opened Guarantees
  import opened ExecutionTheorems
  import opened Ownership
  import opened Backend
  import WithdrawTheorems

  datatype Settled = Settled(r: ReqId, verdict: Verdict)

  /** Unless the request is deleted, or a statement of a worker on it failed after a result, its row has this verdict. */
  predicate HasVerdict(acts: seq<Action>, e: Settled) {
    && e.r < |Run(Initial, acts).cells|
    && (Run(Initial, acts).cells[e.r].row.Some? && Count(acts, e.r, LateFault) == 0 ==>
          && (e.verdict.IsConfirmed? ==> Run(Initial, acts).cells[e.r].row.value.request.status.EXECUTED?)
          && (e.verdict.IsFailed? ==> Run(Initial, acts).cells[e.r].row.value.request.status.FAILED?))
  }

  lemma VerdictLasts(acts: seq<Action>, more: seq<Action>, e: Settled)
    requires HasVerdict(acts, e)
    ensures HasVerdict(acts + more, e)
  {
    hide Run, Inv, Count;
    Reachable(acts);
    RunSplit(Initial, acts, more);
    RunGuards(Run(Initial, acts), more, e.r);
    FinalStays(acts, more, e.r);
    CountIsTally(acts, e.r, LateFault);
    CountIsTally(acts + more, e.r, LateFault);
  }

  lemma VerdictsLast(acts: seq<Action>, more: seq<Action>, done: seq<Settled>)
    requires forall i :: 0 <= i < |done| ==> HasVerdict(acts, done[i])
    ensures forall i :: 0 <= i < |done| ==> HasVerdict(acts + more, done[i])
  {
    hide HasVerdict;
    forall i | 0 <= i < |done| ensures HasVerdict(acts + more, done[i]) { VerdictLasts(acts, more, done[i]); }
  }

  /** A final verdict is what the provider says of transfer `id`. */
  predicate Said(w: World, id: nat, verdict: Verdict) {
    && id < |w.transfers|
    && (verdict.IsConfirmed? ==> w.transfers[id].status.Confirmed?)
    && (verdict.IsFailed? ==> w.transfers[id].status in {TransferStatus.Failed, TransferStatus.Rejected, Cancelled})
  }

  lemma SaidStep(s: State, a: Action, id: nat, verdict: Verdict)
    requires Said(s.world, id, verdict)
    ensures Said(Step(s, a).world, id, verdict)
  {
    hide ApproveTx, RejectTx;
  }

  /** The provider never takes a final word back. */
  lemma {:induction false} SaidLasts(acts: seq<Action>, more: seq<Action>, id: nat, verdict: Verdict)
    requires Said(Run(Initial, acts).world, id, verdict)
    ensures Said(Run(Initial, acts + more).world, id, verdict)
  {
    hide Run, Step, Said;
    if |more| == 0 {
      assert acts + more == acts;
    } else {
      var m, a := more[..|more| - 1], more[|more| - 1];
      SaidLasts(acts, m, id, verdict);
      assert acts + more == acts + m + [a];
      RunSnoc(Initial, acts + m, a);
      SaidStep(Run(Initial, acts + m), a, id, verdict);
    }
  }

  lemma SettleSteps(s: State, p: Pid, todo: seq<Snapshot>, sp: SettlePc, op: Op)
    requires ProcOf(s, p) == Settling(todo, sp) && (todo != [] ==> todo[0].r < |s.cells|)
    ensures todo == [] ==> Step(s, Advance(p, op)) == Become(s, p, Idle)
    ensures todo != [] ==>
              var m := SettleStep(s.world, todo, sp, s.cells[todo[0].r], op);
              Step(s, Advance(p, op)) == s.(cells := s.cells[todo[0].r := m.cell], procs := s.procs[p := m.proc])
  {
  }

  lemma SettleBegins(s: State, p: Pid, found: seq<ReqId>, todo: seq<Snapshot>)
    requires ProcOf(s, p).Idle? && |found| == |todo| <= SETTLEMENT_BATCH
    requires forall i :: 0 <= i < |found| ==>
               found[i] < |s.cells| && SettleFinds(s.cells[found[i]]) && todo[i] == Snapshot(found[i], s.cells[found[i]].row.value.request)
    ensures Step(s, Settle(p, found)) == Become(s, p, Settling(todo, Asking))
  {
    assert todo == seq(|found|, i requires 0 <= i < |found| => Snapshot(found[i], s.cells[found[i]].row.value.request));
  }

  /** What a poll knows of the snapshot it works on. */
  lemma SnapshotsKnown(acts: seq<Action>, p: Pid)
    requires ProcOf(Run(Initial, acts), p).Settling?
    ensures
      var s := Run(Initial, acts);
      var todo := ProcOf(s, p).todo;
      forall i :: 0 <= i < |todo| ==>
        && todo[i].r < |s.cells| && todo[i].request.meta.external.Some?
        && todo[i].request.meta.external.value.id < |s.world.transfers|
  {
    hide Run;
    var s := Run(Initial, acts);
    Reachable(acts);
    InvParts(s);
    assert ProcLink(s.world, s.now, p, s.procs[p], s.cells);
  }

  lemma RowThere(cells: seq<Cell>, cells': seq<Cell>, r: ReqId)
    requires StillThere(cells, cells')
    ensures r < |cells| && cells[r].row.Some? ==> r < |cells'| && cells'[r].row.Some?
  {
  }

  lemma StillTrans(cells: seq<Cell>, cells1: seq<Cell>, cells2: seq<Cell>)
    requires StillThere(cells, cells1) && StillThere(cells1, cells2)
    ensures StillThere(cells, cells2)
  {
  }

  /** What holds of the first results of a poll. */
  ghost predicate DoneSoFar(acts: seq<Action>, w: World, todo: seq<Snapshot>, done: seq<Settled>) {
    |done| <= |todo| && forall i :: 0 <= i < |done| ==>
      && done[i].r == todo[i].r && HasVerdict(acts, done[i])
      && todo[i].request.meta.external.Some? && Said(w, todo[i].request.meta.external.value.id, done[i].verdict)
  }

  lemma SoFarLasts(acts: seq<Action>, more: seq<Action>, todo: seq<Snapshot>, done: seq<Settled>)
    requires DoneSoFar(acts, Run(Initial, acts).world, todo, done)
    ensures DoneSoFar(acts + more, Run(Initial, acts + more).world, todo, done)
  {
    hide Run, HasVerdict, Said;
    VerdictsLast(acts, more, done);
    forall i | 0 <= i < |done| ensures Said(Run(Initial, acts + more).world, todo[i].request.meta.external.value.id, done[i].verdict) {
      SaidLasts(acts, more, todo[i].request.meta.external.value.id, done[i].verdict);
    }
  }

  class MpcSettlementService {
    const db: Store
    const p: Pid
    var isProcessing: bool

    constructor (db: Store, p: Pid)
      ensures this.db == db && this.p == p && !isProcessing
    {
      this.db, this.p, isProcessing := db, p, false;
    }

    /** Up to ten requests of MPC wallets that the provider still holds, as row snapshots. */
    method FindPending() returns (found: seq<ReqId>, todo: seq<Snapshot>)
      ensures |found| == |todo| <= 10
      ensures forall i :: 0 <= i < |found| ==>
                && found[i] < |db.cells| && SettleFinds(db.cells[found[i]])
                && todo[i] == Snapshot(found[i], db.cells[found[i]].row.value.request)
      ensures forall i, j :: 0 <= i < j < |found| ==> found[i] < found[j]
      ensures forall r :: r in found ==>
                && r < |db.cells| && db.cells[r].row.Some?
                && var q := db.cells[r].row.value.request; q.status.PROCESSING? && q.walletType.MPC? && q.meta.external.Some?
      ensures |found| < 10 ==>
                forall r :: 0 <= r < |db.cells| && db.cells[r].row.Some? ==>
                  var q := db.cells[r].row.value.request;
                  q.status.PROCESSING? && q.walletType.MPC? && q.meta.external.Some? ==> r in found
    {
      found, todo := [], [];
      var r := 0;
      while r < |db.cells| && |found| < SETTLEMENT_BATCH
        invariant 0 <= r <= |db.cells| && |found| == |todo| <= SETTLEMENT_BATCH
        invariant forall i :: 0 <= i < |found| ==>
                    && found[i] < |db.cells| && SettleFinds(db.cells[found[i]])
                    && todo[i] == Snapshot(found[i], db.cells[found[i]].row.value.request)
        invariant forall i, j :: 0 <= i < j < |found| ==> found[i] < found[j]
        invariant forall i :: 0 <= i < |found| ==> found[i] < r
        invariant forall i :: 0 <= i < r && SettleFinds(db.cells[i]) ==> i in found
      {
        if SettleFinds(db.cells[r]) { found, todo := found + [r], todo + [Snapshot(r, db.cells[r].row.value.request)]; }
        r := r + 1;
      }
    }

    method Begin(found: seq<ReqId>, todo: seq<Snapshot>)
      requires db.Valid() && ProcOf(db.View(), p).Idle? && |found| == |todo| <= SETTLEMENT_BATCH
      requires forall i :: 0 <= i < |found| ==>
                 && found[i] < |db.cells| && SettleFinds(db.cells[found[i]])
                 && todo[i] == Snapshot(found[i], db.cells[found[i]].row.value.request)
      modifies db
      ensures db.Valid() && db.trace == old(db.trace) + [Settle(p, found)] && ProcOf(db.View(), p) == Settling(todo, Asking)
      ensures db.cells == old(db.cells)
    {
      hide Run, Step;
      SettleBegins(db.View(), p, found, todo);
      Extended(db.trace, Settle(p, found));
      db.procs := db.procs[p := Settling(todo, Asking)];
      db.trace := db.trace + [Settle(p, found)];
    }

    /** mpcService.getTransferStatus: the provider's status of the transfer, mapped. */
    method GetTransferStatus(todo: seq<Snapshot>, op: Op) returns (ok: bool, verdict: Verdict)
      requires db.Valid() && ProcOf(db.View(), p) == Settling(todo, Asking) && todo != []
      modifies db
      ensures db.Valid() && db.trace == old(db.trace) + [Advance(p, op)]
      ensures ok <==> op.Ok?
      ensures ok ==>
                && todo[0].request.meta.external.Some? && todo[0].request.meta.external.value.id < |db.world.transfers|
                && var status := db.world.transfers[todo[0].request.meta.external.value.id].status;
                   && (verdict.IsConfirmed? <==> status.Confirmed?)
                   && (verdict.IsFailed? <==> status in {TransferStatus.Failed, TransferStatus.Rejected, Cancelled})
      ensures db.cells == old(db.cells)
      ensures ok ==> Said(db.world, todo[0].request.meta.external.value.id, verdict)
      ensures ProcOf(db.View(), p) == if ok then Settling(todo, Got(verdict)) else Idle
    {
      hide Run, Step;
      SnapshotsKnown(db.trace, p);
      SettleSteps(db.View(), p, todo, Asking, op);
      Extended(db.trace, Advance(p, op));
      ok, verdict := op.Ok?, MapTransferStatus(db.world.transfers[todo[0].request.meta.external.value.id].status);
      db.procs := db.procs[p := if ok then Settling(todo, Got(verdict)) else Idle];
      db.trace := db.trace + [Advance(p, op)];
    }

    /** The write of the verdict, by id alone, with the metadata of the snapshot. */
    method Update(todo: seq<Snapshot>, verdict: Verdict, op: Op) returns (ok: bool)
      requires db.Valid() && ProcOf(db.View(), p) == Settling(todo, Got(verdict)) && todo != []
      modifies db
      ensures db.Valid() && db.trace == old(db.trace) + [Advance(p, op)] && todo[0].r < |db.cells| == |old(db.cells)|
      ensures ok <==> op.Ok? && old(db.cells)[todo[0].r].row.Some?
      ensures ok ==> HasVerdict(db.trace, Settled(todo[0].r, verdict))
      ensures ok ==>
                && db.cells[todo[0].r].row.Some? && todo[0].request.meta.external.Some?
                && var row, meta := old(db.cells)[todo[0].r].row.value, todo[0].request.meta;
                   var q := row.request.(status := if verdict.IsConfirmed? then EXECUTED else if verdict.IsFailed? then FAILED else row.request.status,
                                         meta := meta.(external := Some(External(meta.external.value.id, verdict))));
                   db.cells[todo[0].r].row == Some(row.(request := q))
      ensures db.world == old(db.world)
      ensures ProcOf(db.View(), p) == if !ok then Idle
                                      else match verdict
                                           case StillPending => Settling(todo[1..], Asking)
                                           case IsConfirmed => Settling(todo, Logging(LogMpcConfirmed))
                                           case IsFailed => Settling(todo, Logging(LogMpcFailed))
    {
      hide Run, Step, Count;
      SnapshotsKnown(db.trace, p);
      SettleSteps(db.View(), p, todo, Got(verdict), op);
      Extended(db.trace, Advance(p, op));
      var c, next := db.cells[todo[0].r], Idle;
      ok := op.Ok? && c.row.Some?;
      if ok {
        var q, meta := c.row.value.request, todo[0].request.meta;
        q := q.(meta := meta.(external := Some(meta.external.value.(status := verdict))));
        if verdict.StillPending? {
          next := Settling(todo[1..], Asking);
        } else if verdict.IsConfirmed? {
          q, next := q.(status := EXECUTED), Settling(todo, Logging(LogMpcConfirmed));
        } else {
          q, next := q.(status := FAILED), Settling(todo, Logging(LogMpcFailed));
        }
        c := SetRequest(c, q);
      }
      db.cells, db.procs := db.cells[todo[0].r := c], db.procs[p := next];
      db.trace := db.trace + [Advance(p, op)];
    }

    method Audit(todo: seq<Snapshot>, event: AuditEvent, op: Op) returns (ok: bool)
      requires db.Valid() && ProcOf(db.View(), p) == Settling(todo, Logging(event)) && todo != []
      modifies db
      ensures db.Valid() && db.trace == old(db.trace) + [Advance(p, op)] && todo[0].r < |db.cells| == |old(db.cells)|
      ensures ok <==> op.Ok? && old(db.cells)[todo[0].r].row.Some?
      ensures ok ==> db.cells[todo[0].r] == AddAudit(old(db.cells)[todo[0].r], event)
      ensures ProcOf(db.View(), p) == if ok then Settling(todo[1..], Asking) else Idle
    {
      hide Run, Step;
      SnapshotsKnown(db.trace, p);
      SettleSteps(db.View(), p, todo, Logging(event), op);
      Extended(db.trace, Advance(p, op));
      var c := db.cells[todo[0].r];
      ok := op.Ok? && c.row.Some?;
      if ok { c := AddAudit(c, event); }
      db.cells, db.procs := db.cells[todo[0].r := c], db.procs[p := if ok then Settling(todo[1..], Asking) else Idle];
      db.trace := db.trace + [Advance(p, op)];
    }

    method Finish()
      requires db.Valid() && ProcOf(db.View(), p) == Settling([], Asking)
      modifies db
      ensures db.Valid() && db.trace == old(db.trace) + [Advance(p, Ok)] && ProcOf(db.View(), p).Idle?
    {
      hide Run, Step;
      SettleSteps(db.View(), p, [], Asking, Ok);
      Extended(db.trace, Advance(p, Ok));
      db.procs := db.procs[p := Idle];
      db.trace := db.trace + [Advance(p, Ok)];
    }

    /** Body of the loop: ask the provider, write what it says, and log a final verdict. */
    method SettleOne(todo: seq<Snapshot>, m1: Moment, m2: Moment, m3: Moment) returns (ok: bool, written: Option<Verdict>)
      requires db.Valid() && ProcOf(db.View(), p) == Settling(todo, Asking) && todo != []
      requires NotBy(m1.others, p) && NotBy(m2.others, p) && NotBy(m3.others, p)
      modifies db
      ensures db.Valid() && old(db.trace) <= db.trace
      ensures ok ==> written.Some?
      ensures written.Some? ==>
                && HasVerdict(db.trace, Settled(todo[0].r, written.value))
                && todo[0].request.meta.external.Some? && Said(db.world, todo[0].request.meta.external.value.id, written.value)
      ensures ProcOf(db.View(), p) == if ok then Settling(todo[1..], Asking) else Idle
      ensures Calm(m1) && Calm(m2) && Calm(m3) ==>
                && StillThere(old(db.cells), db.cells)
                && (todo[0].r < |old(db.cells)| && old(db.cells)[todo[0].r].row.Some? ==> ok)
    {
      hide Run, Step, HasVerdict, Said, StillThere;
      ghost var start := db.trace;
      written := None;
      db.Others(p, m1.others);
      var verdict;
      ok, verdict := GetTransferStatus(todo, m1.op);
      ghost var asked := db.cells;
      if Calm(m1) {
        AllStillThere(start, m1.others + [Advance(p, m1.op)]);
        assert db.trace == start + (m1.others + [Advance(p, m1.op)]);
        RowThere(old(db.cells), asked, todo[0].r);
      }
      if ok { ok, written := Write(todo, verdict, m2, m3); }
      if Calm(m1) && Calm(m2) && Calm(m3) { StillTrans(old(db.cells), asked, db.cells); }
    }

    /** The second half of it. */
    method Write(todo: seq<Snapshot>, verdict: Verdict, m2: Moment, m3: Moment) returns (ok: bool, written: Option<Verdict>)
      requires db.Valid() && ProcOf(db.View(), p) == Settling(todo, Got(verdict)) && todo != []
      requires NotBy(m2.others, p) && NotBy(m3.others, p)
      requires todo[0].request.meta.external.Some? && Said(db.world, todo[0].request.meta.external.value.id, verdict)
      modifies db
      ensures db.Valid() && old(db.trace) <= db.trace
      ensures ok ==> written.Some?
      ensures written.Some? ==>
                && HasVerdict(db.trace, Settled(todo[0].r, written.value))
                && Said(db.world, todo[0].request.meta.external.value.id, written.value)
      ensures ProcOf(db.View(), p) == if ok then Settling(todo[1..], Asking) else Idle
      ensures Calm(m2) && Calm(m3) ==>
                && StillThere(old(db.cells), db.cells)
                && (todo[0].r < |old(db.cells)| && old(db.cells)[todo[0].r].row.Some? ==> ok)
    {
      hide Run, Step, HasVerdict, Said, StillThere;
      ghost var asked := db.trace;
      ghost var more := m2.others + [Advance(p, m2.op)];
      written := None;
      db.Others(p, m2.others);
      if Calm(m2) {
        AllStillThere(asked, m2.others);
        RowThere(old(db.cells), db.cells, todo[0].r);
      }
      ok := Update(todo, verdict, m2.op);
      assert db.trace == asked + more;
      if Calm(m2) { AllStillThere(asked, more); }
      if !ok { return; }
      SaidLasts(asked, more, todo[0].request.meta.external.value.id, verdict);
      written := Some(verdict);
      if !verdict.StillPending? {
        ghost var wrote := db.cells;
        ok := Log(todo, verdict, m3);
        if Calm(m2) && Calm(m3) { StillTrans(old(db.cells), wrote, db.cells); }
      }
    }

    /** The audit row of a final verdict. */
    method Log(todo: seq<Snapshot>, verdict: Verdict, m: Moment) returns (ok: bool)
      requires db.Valid() && todo != [] && !verdict.StillPending? && NotBy(m.others, p)
      requires ProcOf(db.View(), p) == Settling(todo, Logging(if verdict.IsConfirmed? then LogMpcConfirmed else LogMpcFailed))
      requires HasVerdict(db.trace, Settled(todo[0].r, verdict))
      requires todo[0].request.meta.external.Some? && Said(db.world, todo[0].request.meta.external.value.id, verdict)
      modifies db
      ensures db.Valid() && old(db.trace) <= db.trace
      ensures HasVerdict(db.trace, Settled(todo[0].r, verdict)) && Said(db.world, todo[0].request.meta.external.value.id, verdict)
      ensures ProcOf(db.View(), p) == if ok then Settling(todo[1..], Asking) else Idle
      ensures Calm(m) ==> StillThere(old(db.cells), db.cells)
      ensures Calm(m) && todo[0].r < |old(db.cells)| && old(db.cells)[todo[0].r].row.Some? ==> ok
    {
      hide Run, Step, HasVerdict, Said;
      ghost var before := db.trace;
      if Calm(m) { AllStillThere(before, m.others); }
      db.Others(p, m.others);
      ok := Audit(todo, if verdict.IsConfirmed? then LogMpcConfirmed else LogMpcFailed, m.op);
      ghost var more := m.others + [Advance(p, m.op)];
      assert db.trace == before + more;
      VerdictLasts(before, more, Settled(todo[0].r, verdict));
      SaidLasts(before, more, todo[0].request.meta.external.value.id, verdict);
      if Calm(m) { AllStillThere(before, more); }
    }

    /** The loop, and its end. */
    method SettleAll(found: seq<ReqId>, todo: seq<Snapshot>, ghost start: seq<Action>, script: nat -> Moment) returns (done: seq<Settled>)
      requires db.Valid() && ProcOf(db.View(), p) == Settling(todo, Asking) && forall k: nat :: NotBy(script(k).others, p)
      requires |found| == |todo|
      requires forall i :: 0 <= i < |todo| ==>
                 && todo[i].r == found[i] && todo[i].request.meta.external.Some?
                 && found[i] < |db.cells| && db.cells[found[i]].row.Some?
      modifies db
      ensures db.Valid() && old(db.trace) <= db.trace && ProcOf(db.View(), p).Idle?
      ensures |done| <= |found| && forall i :: 0 <= i < |done| ==>
                && done[i].r == found[i] && HasVerdict(db.trace, done[i])
                && Said(db.world, todo[i].request.meta.external.value.id, done[i].verdict)
      ensures AllCalm(script) ==> |done| == |found|
    {
      hide Run, Step, HasVerdict, SettleFinds, Said;
      done := [];
      var i := 0;
      while i < |todo|
        invariant 0 <= i <= |todo| && db.Valid() && old(db.trace) <= db.trace
        invariant ProcOf(db.View(), p) == Settling(todo[i..], Asking)
        invariant |done| == i && DoneSoFar(db.trace, db.world, todo, done)
        invariant AllCalm(script) ==> StillThere(old(db.cells), db.cells)
      {
        ghost var before := db.trace;
        var ok, written := SettleOne(todo[i..], script(1 + 3 * i), script(2 + 3 * i), script(3 + 3 * i));
        assert before + db.trace[|before|..] == db.trace;
        SoFarLasts(before, db.trace[|before|..], todo, done);
        if written.Some? { done := done + [Settled(todo[i].r, written.value)]; }
        if !ok { return; }
        i := i + 1;
      }
      ghost var before := db.trace;
      Finish();
      SoFarLasts(before, [Advance(p, Ok)], todo, done);
    }

    /** One poll. It leaves isProcessing as it found it; every final verdict that it wrote is the provider's last word on
      * that transfer, and stands on the request when it ends, in spite of stale snapshots and of other polls writing the
      * same rows. If nothing fails and nothing is deleted, it settles ten of the requests that the provider held when it
      * read its list, or all of them if there were fewer. */
    method Poll(script: nat -> Moment) returns (done: seq<Settled>, ghost start: seq<Action>)
      requires db.Valid() && (!isProcessing ==> ProcOf(db.View(), p).Idle?) && forall k: nat :: NotBy(script(k).others, p)
      modifies this, db
      ensures db.Valid() && isProcessing == old(isProcessing) && old(db.trace) <= start <= db.trace
      ensures old(isProcessing) ==> done == [] && db.trace == old(db.trace)
      ensures !old(isProcessing) ==> ProcOf(db.View(), p).Idle?
      ensures forall i :: 0 <= i < |done| ==> HasVerdict(db.trace, done[i])
      ensures
        var s := Run(Initial, start);
        && (forall i :: 0 <= i < |done| ==>
              && done[i].r < |s.cells| && SettleFinds(s.cells[done[i].r])
              && Said(db.world, s.cells[done[i].r].row.value.request.meta.external.value.id, done[i].verdict))
        && (forall i, j :: 0 <= i < j < |done| ==> done[i].r < done[j].r)
        && (!old(isProcessing) && AllCalm(script) && |done| != 10 ==>
              |done| < 10 && forall r :: 0 <= r < |s.cells| && SettleFinds(s.cells[r]) ==> exists i :: 0 <= i < |done| && done[i].r == r)
    {
      hide Run, Step, HasVerdict, Said, StillThere;
      assert AllCalm(script) ==> Calm(script(0));
      done, start := [], db.trace;
      if isProcessing { return; }
      isProcessing := true;
      db.Others(p, script(0).others);
      start := db.trace;
      if !script(0).op.Ok? {
        isProcessing := false;
        return;
      }
      var found, todo := FindPending();
      Begin(found, todo);
      done := SettleAll(found, todo, start, script);
      isProcessing := false;
      assert AllCalm(script) ==> forall i :: 0 <= i < |done| ==> done[i].r == found[i];
    }
  }
}

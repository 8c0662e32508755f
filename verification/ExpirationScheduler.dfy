/** apps/api/src/wallet/multisig-expiration.scheduler.ts: one run of the expiry scheduler, over the list of requests
  * that its query found, however stale that list has become. */
module ExpirationScheduler {
  import opened Domain
  import opened Pipeline
  import opened CellInvariant
  import opened RunInvariant
  import opened StepInvariant
  import opened Guarantees
  import opened ExecutionTheorems
  import opened Ownership
  import opened Backend

  /** Process p expired this request: it made the exit from PENDING, and unless it is deleted the row says so. */
  predicate ExpiredBy(s: State, r: ReqId, p: Pid) {
    r < |s.cells| && s.cells[r].hist.closer == Some(p) && (s.cells[r].row.Some? ==> s.cells[r].row.value.request.status.EXPIRED?)
  }

  predicate LeftPending(s: State, r: ReqId) {
    r < |s.cells| && (s.cells[r].row.Some? ==> !s.cells[r].row.value.request.status.PENDING?)
  }

  /** Both last, whatever happens next. */
  lemma ExitsLast(acts: seq<Action>, more: seq<Action>, r: ReqId, p: Pid)
    ensures ExpiredBy(Run(Initial, acts), r, p) ==> ExpiredBy(Run(Initial, acts + more), r, p)
    ensures LeftPending(Run(Initial, acts), r) ==> LeftPending(Run(Initial, acts + more), r)
  {
    hide Run, Inv;
    Reachable(acts);
    RunSplit(Initial, acts, more);
    if r < |Run(Initial, acts).cells| { RunGuards(Run(Initial, acts), more, r); }
  }

  lemma AllExitsLast(acts: seq<Action>, more: seq<Action>, p: Pid)
    ensures forall r :: ExpiredBy(Run(Initial, acts), r, p) ==> ExpiredBy(Run(Initial, acts + more), r, p)
    ensures forall r :: LeftPending(Run(Initial, acts), r) ==> LeftPending(Run(Initial, acts + more), r)
  {
    hide Run, ExpiredBy, LeftPending;
    forall r ensures ExpiredBy(Run(Initial, acts), r, p) ==> ExpiredBy(Run(Initial, acts + more), r, p) { ExitsLast(acts, more, r, p); }
    forall r ensures LeftPending(Run(Initial, acts), r) ==> LeftPending(Run(Initial, acts + more), r) { ExitsLast(acts, more, r, p); }
  }

  lemma ExpireSteps(s: State, p: Pid, ids: seq<ReqId>, logging: bool, op: Op)
    requires ProcOf(s, p) == Expiring(ids, logging) && (ids != [] ==> ids[0] < |s.cells|)
    ensures ids == [] ==> Step(s, Advance(p, op)) == Become(s, p, Idle)
    ensures ids != [] ==>
              var m := ExpireStep(s.world, p, ids, logging, s.cells[ids[0]], op);
              Step(s, Advance(p, op)) == s.(cells := s.cells[ids[0] := m.cell], procs := s.procs[p := m.proc])
  {
  }

  lemma ExpireBegins(s: State, p: Pid, found: seq<ReqId>)
    requires ProcOf(s, p).Idle? && forall i :: 0 <= i < |found| ==> found[i] < |s.cells| && ExpireFinds(s.cells[found[i]], s.now)
    ensures Step(s, Expire(p, found)) == Become(s, p, Expiring(found, false))
  {
  }

  lemma ListInRange(acts: seq<Action>, p: Pid)
    requires ProcOf(Run(Initial, acts), p).Expiring?
    ensures forall i :: 0 <= i < |ProcOf(Run(Initial, acts), p).ids| ==> ProcOf(Run(Initial, acts), p).ids[i] < |Run(Initial, acts).cells|
  {
    hide Run;
    var s := Run(Initial, acts);
    Reachable(acts);
    InvParts(s);
    assert ProcLink(s.world, s.now, p, s.procs[p], s.cells);
  }

  lemma NotCalm(m: Moment)
    requires !m.op.Ok?
    ensures !Calm(m)
  {
  }

  class MultisigExpirationScheduler {
    const db: Store
    const p: Pid

    constructor (db: Store, p: Pid)
      ensures this.db == db && this.p == p
    {
      this.db, this.p := db, p;
    }

    /** The PENDING requests of MULTISIG wallets past their deadline. */
    method FindExpired() returns (found: seq<ReqId>)
      ensures forall r :: r in found <==> 0 <= r < |db.cells| && ExpireFinds(db.cells[r], db.now)
      ensures forall r :: 0 <= r < |db.cells| && db.cells[r].row.Some? ==>
                var q := db.cells[r].row.value.request;
                r in found <==> q.status.PENDING? && q.walletType.MULTISIG? && q.expiresAt.Some? && q.expiresAt.value < db.now
    {
      found := [];
      var r := 0;
      while r < |db.cells|
        invariant 0 <= r <= |db.cells|
        invariant forall i :: i in found <==> 0 <= i < r && ExpireFinds(db.cells[i], db.now)
      {
        if ExpireFinds(db.cells[r], db.now) { found := found + [r]; }
        r := r + 1;
      }
    }

    method Begin(found: seq<ReqId>)
      requires db.Valid() && ProcOf(db.View(), p).Idle?
      requires forall i :: 0 <= i < |found| ==> found[i] < |db.cells| && ExpireFinds(db.cells[found[i]], db.now)
      modifies db
      ensures db.Valid() && db.trace == old(db.trace) + [Expire(p, found)] && ProcOf(db.View(), p) == Expiring(found, false)
    {
      hide Run, Step;
      ExpireBegins(db.View(), p, found);
      Extended(db.trace, Expire(p, found));
      db.procs := db.procs[p := Expiring(found, false)];
      db.trace := db.trace + [Expire(p, found)];
    }

    /** The guarded update of the next request: it expires the request only if that is still PENDING. */
    method UpdateMany(ids: seq<ReqId>, op: Op) returns (ok: bool, count: nat)
      requires db.Valid() && ProcOf(db.View(), p) == Expiring(ids, false) && ids != []
      modifies db
      ensures db.Valid() && db.trace == old(db.trace) + [Advance(p, op)] && ids[0] < |db.cells| == |old(db.cells)|
      ensures ok <==> op.Ok?
      ensures count <= 1 && (count == 1 <==> ok && old(db.cells)[ids[0]].row.Some? && old(db.cells)[ids[0]].row.value.request.status.PENDING?)
      ensures count == 0 ==> db.cells == old(db.cells)
      ensures count == 1 ==>
                && ExpiredBy(db.View(), ids[0], p)
                && var row := old(db.cells)[ids[0]].row.value; db.cells[ids[0]].row == Some(row.(request := row.request.(status := EXPIRED)))
      ensures forall r :: 0 <= r < |db.cells| && r != ids[0] ==> db.cells[r] == old(db.cells)[r]
      ensures ok ==> LeftPending(db.View(), ids[0])
      ensures ProcOf(db.View(), p) == if !ok then Idle else if count == 1 then Expiring(ids, true) else Expiring(ids[1..], false)
    {
      hide Run, Step;
      ListInRange(db.trace, p);
      ExpireSteps(db.View(), p, ids, false, op);
      Extended(db.trace, Advance(p, op));
      var c, next := db.cells[ids[0]], Idle;
      ok, count := op.Ok?, 0;
      if ok {
        next := Expiring(ids[1..], false);
        if c.row.Some? && c.row.value.request.status.PENDING? {
          c := Close(SetRequest(c, c.row.value.request.(status := EXPIRED)), p);
          count, next := 1, Expiring(ids, true);
        }
      }
      db.cells, db.procs := db.cells[ids[0] := c], db.procs[p := next];
      db.trace := db.trace + [Advance(p, op)];
    }

    method AuditExpired(ids: seq<ReqId>, op: Op) returns (ok: bool)
      requires db.Valid() && ProcOf(db.View(), p) == Expiring(ids, true) && ids != []
      modifies db
      ensures db.Valid() && db.trace == old(db.trace) + [Advance(p, op)]
      ensures ids[0] < |db.cells| == |old(db.cells)| && (ok <==> op.Ok? && old(db.cells)[ids[0]].row.Some?)
      ensures ok ==> db.cells[ids[0]] == AddAudit(old(db.cells)[ids[0]], LogExpired)
      ensures ProcOf(db.View(), p) == if ok then Expiring(ids[1..], false) else Idle
    {
      hide Run, Step;
      ListInRange(db.trace, p);
      ExpireSteps(db.View(), p, ids, true, op);
      Extended(db.trace, Advance(p, op));
      var c := db.cells[ids[0]];
      ok := op.Ok? && c.row.Some?;
      if ok { c := AddAudit(c, LogExpired); }
      db.cells, db.procs := db.cells[ids[0] := c], db.procs[p := if ok then Expiring(ids[1..], false) else Idle];
      db.trace := db.trace + [Advance(p, op)];
    }

    method Finish()
      requires db.Valid() && ProcOf(db.View(), p) == Expiring([], false)
      modifies db
      ensures db.Valid() && db.trace == old(db.trace) + [Advance(p, Ok)] && ProcOf(db.View(), p).Idle?
    {
      hide Run, Step;
      ExpireSteps(db.View(), p, [], false, Ok);
      Extended(db.trace, Advance(p, Ok));
      db.procs := db.procs[p := Idle];
      db.trace := db.trace + [Advance(p, Ok)];
    }

    /** One request of the list: the guarded update, and the audit row if it expired something. */
    method ExpireOne(ids: seq<ReqId>, m1: Moment, m2: Moment) returns (ok: bool, expired: bool)
      requires db.Valid() && ProcOf(db.View(), p) == Expiring(ids, false) && ids != [] && NotBy(m1.others, p) && NotBy(m2.others, p)
      modifies db
      ensures db.Valid() && old(db.trace) <= db.trace
      ensures ProcOf(db.View(), p) == if ok then Expiring(ids[1..], false) else Idle
      ensures expired ==> ExpiredBy(db.View(), ids[0], p)
      ensures ok ==> LeftPending(db.View(), ids[0])
      ensures Calm(m1) && Calm(m2) ==> ok
    {
      hide Run, Step, ExpiredBy, LeftPending;
      db.Others(p, m1.others);
      var count;
      ok, count := UpdateMany(ids, m1.op);
      expired := count == 1;
      if expired {
        ghost var before := db.trace;
        if Calm(m2) { AllStillThere(before, m2.others); }
        db.Others(p, m2.others);
        ok := AuditExpired(ids, m2.op);
        AllExitsLast(before, m2.others + [Advance(p, m2.op)], p);
        assert db.trace == before + (m2.others + [Advance(p, m2.op)]);
      }
    }

    /** A run to its end, or to a statement that fails. What it reports as expired, it did expire, and stays so; and
      * after a complete run every request that was overdue when the run read its list has left PENDING for good. A run is
      * complete when nothing fails and nothing is deleted. */
    method ExpirePendingMultisigWithdraws(script: nat -> Moment) returns (expired: seq<ReqId>, complete: bool, ghost start: seq<Action>)
      requires db.Valid() && ProcOf(db.View(), p).Idle? && forall k: nat :: NotBy(script(k).others, p)
      modifies db
      ensures db.Valid() && ProcOf(db.View(), p).Idle?
      ensures old(db.trace) <= start <= db.trace
      ensures forall i :: 0 <= i < |expired| ==> ExpiredBy(db.View(), expired[i], p)
      ensures
        var s := Run(Initial, start);
        complete ==> forall r :: 0 <= r < |s.cells| && ExpireFinds(s.cells[r], s.now) ==> LeftPending(db.View(), r)
      ensures AllCalm(script) ==> complete
    {
      hide Run, Step, ExpiredBy, LeftPending, ExpireFinds, Calm;
      assert AllCalm(script) ==> Calm(script(0));
      expired, complete := [], false;
      db.Others(p, script(0).others);
      start := db.trace;
      if !script(0).op.Ok? {
        assert !Calm(script(0)) by { NotCalm(script(0)); }
        return;
      }
      var found := FindExpired();
      assert forall i :: 0 <= i < |found| ==> found[i] in found;
      Begin(found);
      var i := 0;
      while i < |found|
        invariant 0 <= i <= |found| && db.Valid() && start <= db.trace
        invariant ProcOf(db.View(), p) == Expiring(found[i..], false)
        invariant forall k :: 0 <= k < |expired| ==> ExpiredBy(db.View(), expired[k], p)
        invariant forall k :: 0 <= k < i ==> LeftPending(db.View(), found[k])
      {
        ghost var before := db.trace;
        var ok, yes := ExpireOne(found[i..], script(1 + 2 * i), script(2 + 2 * i));
        AllExitsLast(before, db.trace[|before|..], p);
        assert before + db.trace[|before|..] == db.trace;
        if yes { expired := expired + [found[i]]; }
        if !ok { return; }
        i := i + 1;
      }
      ghost var before := db.trace;
      Finish();
      AllExitsLast(before, [Advance(p, Ok)], p);
      complete := true;
    }
  }
}

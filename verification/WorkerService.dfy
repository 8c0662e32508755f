/** apps/api/src/wallet/withdrawal-worker.service.ts and queue.service.ts: one poll, statement by statement, with
  * anything that the other processes do in between. */
module WorkerService {
  import opened Domain
  import opened Pipeline
  import opened CellInvariant
  import opened RunInvariant
  import opened ExecutionTheorems
  import opened QueueTheorems
  import opened Ownership
  import opened Backend
  import PolicyGuardV1
  import StepInvariant
  import ApprovalTheorems

  datatype TryEnd = Finished | Thrown | Dead

  /** How a poll ended: there was one running already; no job was eligible; or it took the job of request r,
    * and started an execution or not, and got a result from it or not. */
  datatype PollEnd = Busy | NothingToDo | Polled(r: ReqId, executed: bool, succeeded: bool)

  /** Between two points of a run, request r was executed and returned a result so many times more. */
  predicate Adds(before: seq<Action>, after: seq<Action>, r: ReqId, executions: nat, successes: nat) {
    && Count(after, r, Execution) == Count(before, r, Execution) + executions
    && Count(after, r, Success) == Count(before, r, Success) + successes
  }

  /** The request or its job was deleted. */
  predicate Gone(cells: seq<Cell>, r: ReqId) { r < |cells| && Missing(cells[r]) }

  /** After this run the rows of request r are as they were, but for what is written on the request. */
  ghost predicate RequestWritten(acts: seq<Action>, cells: seq<Cell>, r: ReqId, write: Request -> Request) {
    var before := Run(Initial, acts).cells;
    && r < |before| && r < |cells| && before[r].row.Some?
    && cells[r].row == Some(before[r].row.value.(request := write(before[r].row.value.request)))
  }

  /** The same for its queue row. */
  ghost predicate JobWritten(acts: seq<Action>, cells: seq<Cell>, r: ReqId, write: Job -> Job) {
    var before := Run(Initial, acts).cells;
    && r < |before| && r < |cells| && !Missing(before[r])
    && cells[r].row == Some(before[r].row.value.(queue := Some(write(before[r].row.value.queue.value))))
  }

  /** The same for its audit log. */
  ghost predicate AuditWritten(acts: seq<Action>, cells: seq<Cell>, r: ReqId, e: AuditEvent) {
    var before := Run(Initial, acts).cells;
    && r < |before| && r < |cells| && before[r].row.Some?
    && cells[r].row == Some(before[r].row.value.(audit := before[r].row.value.audit + multiset{e}))
  }

  /** After this run the rows of request r are as they were. */
  ghost predicate RowsKept(acts: seq<Action>, cells: seq<Cell>, r: ReqId) {
    r < |Run(Initial, acts).cells| && r < |cells| && cells[r].row == Run(Initial, acts).cells[r].row
  }

  class QueueService {
    const db: Store

    constructor (db: Store)
      ensures this.db == db
    {
      this.db := db;
    }

    /** Takes the eligible job that was inserted first, if there is one. */
    method ReserveNext(p: Pid, m: Moment) returns (job: Option<ReqId>)
      requires db.Valid() && NotBy(m.others, p) && ProcOf(db.View(), p).Idle?
      modifies db
      ensures db.Valid() && db.trace == old(db.trace) + m.others + (if m.op.Ok? then [Reserve(p)] else [])
      ensures ProcOf(db.View(), p) == if job.Some? then Worker(job.value, Claimed) else Idle
      ensures job.Some? ==> Adds(old(db.trace) + m.others, db.trace, job.value, 0, 0)
      ensures
        var s := Run(Initial, old(db.trace) + m.others);
        && (m.op.Ok? && job.None? ==>
              forall r :: 0 <= r < |s.cells| && s.cells[r].row.Some? && s.cells[r].row.value.queue.Some? ==>
                var j := s.cells[r].row.value.queue.value;
                !j.status.WAITING? && (j.status.RETRY_WAIT? ==> s.now < j.availableAt))
        && (job.Some? ==>
              && job.value < |s.cells| && s.cells[job.value].row.Some? && s.cells[job.value].row.value.queue.Some?
              && var taken := s.cells[job.value].row.value.queue.value;
                 && (taken.status.WAITING? || (taken.status.RETRY_WAIT? && taken.availableAt <= s.now))
                 && forall r :: 0 <= r < |s.cells| && s.cells[r].row.Some? && s.cells[r].row.value.queue.Some? ==>
                      var j := s.cells[r].row.value.queue.value;
                      j.status.WAITING? || (j.status.RETRY_WAIT? && j.availableAt <= s.now) ==> taken.ticket <= j.ticket)
        && (job.Some? ==>
              && |db.cells| == |s.cells| && db.cells[job.value].row.Some?
              && db.cells[job.value].row.value.queue == Some(s.cells[job.value].row.value.queue.value.(status := RESERVED, workerId := Some(p)))
              && db.cells[job.value].row.value.request == s.cells[job.value].row.value.request)
      ensures job.None? && m.op.Ok? ==> forall r :: 0 <= r < |db.cells| ==> !Eligible(db.cells[r], db.now)
    {
      hide Run, Step, Count, Marks;
      db.Others(p, m.others);
      job := None;
      if m.op.Ok? {
        job := Oldest(db.cells, db.now);
        assert job.None? ==> forall r :: 0 <= r < |db.cells| ==> !Eligible(db.cells[r], db.now);
        db.Take(p, job);
      }
    }

    method MarkRunning(p: Pid, r: ReqId, m: Moment) returns (ok: bool)
      requires db.At(p, r, Loaded) && NotBy(m.others, p)
      modifies db
      ensures db.Valid() && db.trace == old(db.trace) + m.others + [Advance(p, m.op)]
      ensures ProcOf(db.View(), p) == if ok then Worker(r, Running) else Idle
      ensures Adds(old(db.trace), db.trace, r, 0, 0)
      ensures ok ==> r < |db.cells| && !Missing(db.cells[r]) && db.cells[r].row.value.queue.value.status.RUNNING?
      ensures ok ==> JobWritten(old(db.trace) + m.others, db.cells, r, (j: Job) => j.(status := RUNNING))
      ensures ok <==> m.op.Ok?
    {
      db.Others(p, m.others);
      WorkFinds(db.trace, p);
      ok := db.GoesThrough(r, m.op);
      if ok {
        var c := db.cells[r];
        db.Commit(p, r, Loaded, Worker(r, Running), SetJob(c, c.row.value.queue.value.(status := RUNNING)), db.world);
      } else {
        var _ := db.Throw(p, r, Loaded, m.op);
      }
    }

    method MarkSucceeded(p: Pid, r: ReqId, snap: Request, result: Result, m: Moment) returns (end: TryEnd)
      requires db.At(p, r, Recorded(snap, result)) && NotBy(m.others, p)
      modifies db
      ensures db.Valid() && db.trace == old(db.trace) + m.others + [Advance(p, m.op)]
      ensures ProcOf(db.View(), p) == match end
                                      case Finished => Worker(r, WorkerPc.Succeeded(snap, if result.OnChain? then LogConfirmed else LogStarted))
                                      case Thrown => Worker(r, Caught(snap))
                                      case Dead => Idle
      ensures Adds(old(db.trace), db.trace, r, 0, 0)
      ensures end.Finished? ==> r < |db.cells| && !Missing(db.cells[r]) && db.cells[r].row.value.queue.value.status.SUCCEEDED?
      ensures end.Finished? ==> JobWritten(old(db.trace) + m.others, db.cells, r, (j: Job) => j.(status := SUCCEEDED))
      ensures end.Finished? <==> m.op.Ok?
      ensures end.Dead? <==> m.op.Die?
    {
      db.Others(p, m.others);
      WorkFinds(db.trace, p);
      var event := if result.OnChain? then LogConfirmed else LogStarted;
      if db.GoesThrough(r, m.op) {
        var c := db.cells[r];
        db.Commit(p, r, Recorded(snap, result), Worker(r, WorkerPc.Succeeded(snap, event)),
                  SetJob(c, c.row.value.queue.value.(status := SUCCEEDED)), db.world);
        end := Finished;
      } else {
        var caught := db.Throw(p, r, Recorded(snap, result), m.op);
        end := if caught then Thrown else Dead;
      }
    }

    method MarkDead(p: Pid, r: ReqId, snap: Request, m: Moment) returns (ok: bool)
      requires db.At(p, r, Counted(snap)) && NotBy(m.others, p) && snap.retryCount + 1 >= MAX_ATTEMPTS
      modifies db
      ensures db.Valid() && db.trace == old(db.trace) + m.others + [Advance(p, m.op)]
      ensures ProcOf(db.View(), p) == if ok then Noting(r, None, LogFailed, None) else Idle
      ensures Adds(old(db.trace), db.trace, r, 0, 0)
      ensures ok ==> r < |db.cells| && !Missing(db.cells[r]) && db.cells[r].row.value.queue.value.status.DEAD?
      ensures ok ==> JobWritten(old(db.trace) + m.others, db.cells, r, (j: Job) => j.(status := DEAD))
      ensures !ok ==> !m.op.Ok? || Gone(db.cells, r)
    {
      db.Others(p, m.others);
      ok := db.GoesThrough(r, m.op);
      if ok {
        var c := db.cells[r];
        db.Commit(p, r, Counted(snap), Noting(r, None, LogFailed, None), SetJob(c, c.row.value.queue.value.(status := DEAD)), db.world);
      } else {
        var _ := db.Throw(p, r, Counted(snap), m.op);
      }
    }

    method FindAttempts(p: Pid, r: ReqId, snap: Request, m: Moment) returns (ok: bool, attempts: nat)
      requires db.At(p, r, Counted(snap)) && NotBy(m.others, p) && snap.retryCount + 1 < MAX_ATTEMPTS
      modifies db
      ensures db.Valid() && db.trace == old(db.trace) + m.others + [Advance(p, m.op)]
      ensures ProcOf(db.View(), p) == if ok then Worker(r, Reread(snap, attempts)) else Idle
      ensures Adds(old(db.trace), db.trace, r, 0, 0)
      ensures !ok ==> !m.op.Ok? || Gone(db.cells, r)
      ensures RowsKept(old(db.trace) + m.others, db.cells, r)
    {
      db.Others(p, m.others);
      ok, attempts := db.GoesThrough(r, m.op), 0;
      if ok {
        attempts := db.cells[r].row.value.queue.value.attemptCount;
        db.Commit(p, r, Counted(snap), Worker(r, Reread(snap, attempts)), db.cells[r], db.world);
      } else {
        var _ := db.Throw(p, r, Counted(snap), m.op);
      }
    }

    method WriteRetry(p: Pid, r: ReqId, snap: Request, attempts: nat, m: Moment) returns (ok: bool)
      requires db.At(p, r, Reread(snap, attempts)) && NotBy(m.others, p)
      modifies db
      ensures db.Valid() && db.trace == old(db.trace) + m.others + [Advance(p, m.op)]
      ensures ProcOf(db.View(), p) == if ok then Noting(r, None, LogRetry, None) else Idle
      ensures Adds(old(db.trace), db.trace, r, 0, 0)
      ensures
        ok ==>
          && r < |db.cells| && !Missing(db.cells[r])
          && var q, j := db.cells[r].row.value.request, db.cells[r].row.value.queue.value;
             j.status.RETRY_WAIT? && j.attemptCount == q.retryCount == snap.retryCount + 1 && j.availableAt == db.now + 30_000
      ensures ok ==>
                var later := db.now + 30_000;
                JobWritten(old(db.trace) + m.others, db.cells, r, (j: Job) => j.(status := RETRY_WAIT, attemptCount := attempts + 1, availableAt := later))
      ensures !ok ==> !m.op.Ok? || Gone(db.cells, r)
    {
      db.Others(p, m.others);
      ok := db.GoesThrough(r, m.op);
      if ok {
        RereadCurrent(db.trace, p);
        var c := db.cells[r];
        var j := c.row.value.queue.value.(status := RETRY_WAIT, attemptCount := attempts + 1, availableAt := db.now + RETRY_DELAY);
        db.Commit(p, r, Reread(snap, attempts), Noting(r, None, LogRetry, None), SetJob(c, j), db.world);
      } else {
        var _ := db.Throw(p, r, Reread(snap, attempts), m.op);
      }
    }

    /** Reads the attempt count, and writes it back one higher: in spite of the gap between the two statements, the
      * job then waits with the attempt count that the request row has. */
    method MarkRetry(p: Pid, r: ReqId, snap: Request, m1: Moment, m2: Moment) returns (ok: bool)
      requires db.At(p, r, Counted(snap)) && NotBy(m1.others, p) && NotBy(m2.others, p) && snap.retryCount + 1 < MAX_ATTEMPTS
      modifies db
      ensures db.Valid() && old(db.trace) <= db.trace
      ensures ProcOf(db.View(), p) == if ok then Noting(r, None, LogRetry, None) else Idle
      ensures Adds(old(db.trace), db.trace, r, 0, 0)
      ensures
        ok ==>
          && r < |db.cells| && !Missing(db.cells[r])
          && var q, j := db.cells[r].row.value.request, db.cells[r].row.value.queue.value;
             j.status.RETRY_WAIT? && j.attemptCount == q.retryCount == snap.retryCount + 1 && j.availableAt == db.now + 30_000
      ensures !ok ==> !m1.op.Ok? || !m2.op.Ok? || Gone(db.cells, r)
    {
      hide Run, Count;
      var attempts;
      ok, attempts := FindAttempts(p, r, snap, m1);
      if ok { ok := WriteRetry(p, r, snap, attempts, m2); }
    }
  }

  /** What happens around each statement of a poll, by its position. */
  type Script = nat -> Moment

  ghost predicate Foreign(script: Script, p: Pid) { forall k: nat :: NotBy(script(k).others, p) }

  lemma StillFollows(acts: seq<Action>, all: seq<Action>, r: ReqId, snap: Request)
    requires acts <= all && r < |Run(Initial, acts).cells| && Follows(snap, Run(Initial, acts).cells[r].hist.intent)
    ensures r < |Run(Initial, all).cells| && Follows(snap, Run(Initial, all).cells[r].hist.intent)
  {
    hide Run;
    IntentStays(acts, all[|acts|..], r);
    assert acts + all[|acts|..] == all;
  }

  /** Every statement of the poll goes through, as far as the rows it needs exist. */
  ghost predicate Smooth(script: Script) { forall k: nat :: script(k).op.Ok? }

  /** Whether an execution on a wallet of this type returns a result when it does not fail. For SSS that depends on the chain. */
  predicate Payable(t: WalletType, to: Address, amount: Wei) {
    !t.SSS? && (t.POLICY_GUARD? ==> to != 0 && 0 < amount <= 1_000_000_000_000_000)
  }

  /** How an SSS execution ends when none of its own statements fails: with its transaction mined; by a throw, when none
    * was stored or it was reverted; and otherwise the process stopped waiting for one that is not mined. */
  predicate SssOutcome(end: TryEnd, c: Cell, w: World) {
    var tx := c.hist.intent.signedTx;
    match end
    case Finished => tx.Some? && Mined(tx.value, true) in w.mined
    case Thrown => (c.row.Some? && c.row.value.request.meta.signedTx.None?) || (tx.Some? && Mined(tx.value, false) in w.mined)
    case Dead => tx.Some? && forall ok :: Mined(tx.value, ok) !in w.mined
  }

  lemma StoredIsSigned(acts: seq<Action>, p: Pid)
    requires ProcOf(Run(Initial, acts), p).Worker? && ProcOf(Run(Initial, acts), p).pc.SssSent?
    ensures
      var s := Run(Initial, acts);
      ProcOf(s, p).r < |s.cells| && ProcOf(s, p).pc.meta.signedTx == s.cells[ProcOf(s, p).r].hist.intent.signedTx
  {
    hide Run;
    var s := Run(Initial, acts);
    StepInvariant.Reachable(acts);
    StepInvariant.InvParts(s);
    assert ProcLink(s.world, s.now, p, s.procs[p], s.cells);
  }

  /** A row snapshot with the order that the request was created for. */
  predicate Follows(q: Request, i: Intent) {
    q.walletId == i.walletId && q.walletType == i.wallet.walletType && q.to == i.to && q.amount == i.amount
  }

  lemma RowFollows(acts: seq<Action>, r: ReqId)
    requires r < |Run(Initial, acts).cells| && Run(Initial, acts).cells[r].row.Some?
    ensures Follows(Run(Initial, acts).cells[r].row.value.request, Run(Initial, acts).cells[r].hist.intent)
  {
    hide Run;
    CellAt(acts, r);
  }

  class WithdrawalWorker {
    const db: Store
    const queue: QueueService
    const p: Pid
    var isProcessing: bool

    constructor (db: Store, p: Pid)
      ensures this.db == db && this.queue.db == db && this.p == p && !isProcessing
    {
      this.db, this.p, isProcessing := db, p, false;
      queue := new QueueService(db);
    }

    /** A statement on the request row, or an audit append: goes through with the given effect, or throws. */
    method Statement(r: ReqId, pc: WorkerPc, next: Proc, cell: Cell, w: World, op: Op) returns (end: TryEnd)
      requires db.At(p, r, pc)
      requires db.GoesThrough(r, op) ==> WorkStep(db.world, db.now, r, pc, db.cells[r], Ok) == Moved(next, cell, w)
      modifies db
      ensures db.Valid() && db.trace == old(db.trace) + [Advance(p, op)]
      ensures end.Finished? <==> old(db.GoesThrough(r, op))
      ensures end.Finished? ==> db.cells == old(db.cells)[r := cell] && db.world == w
      ensures !end.Finished? ==>
                && db.world == old(db.world) && r < |db.cells| == |old(db.cells)| && db.cells[r].row == old(db.cells)[r].row
                && db.cells[r].hist.intent == old(db.cells)[r].hist.intent
      ensures |db.cells| == |old(db.cells)|
      ensures end.Thrown? ==> InTry(pc)
      ensures end.Dead? <==> !old(db.GoesThrough(r, op)) && (op.Die? || !InTry(pc))
      ensures ProcOf(db.View(), p) == match end
                                      case Finished => next
                                      case Thrown => Worker(r, Caught(pc.snap))
                                      case Dead => Idle
      ensures Adds(old(db.trace), db.trace, r,
                   if end.Finished? && pc.Ready? && next.Worker? && next.pc.Calling? then 1 else 0,
                   if end.Finished? && !pc.Returned? && next.Worker? && next.pc.Returned? then 1 else 0)
      ensures !end.Finished? && op.Ok? ==> Gone(db.cells, r)
    {
      hide WorkStep, Run, Count, Marks, Step;
      if db.GoesThrough(r, op) {
        db.Commit(p, r, pc, next, cell, w);
        end := Finished;
      } else {
        var caught := db.Throw(p, r, pc, op);
        end := if caught then Thrown else Dead;
      }
    }

    /** The audit log of request r has this event. */
    ghost predicate IsLogged(r: ReqId, e: AuditEvent)
      reads db
    {
      r < |db.cells| && db.cells[r].row.Some? && e in db.cells[r].row.value.audit
    }

    /** Reads the reserved job back, marks it RUNNING, loads the request, and announces the execution. */
    method Prepare(r: ReqId, script: Script) returns (ok: bool, snap: Option<Request>)
      requires db.At(p, r, Claimed) && Foreign(script, p) && queue.db == db
      modifies db
      ensures db.Valid() && old(db.trace) <= db.trace && Adds(old(db.trace), db.trace, r, 0, 0)
      ensures ok ==> snap.Some?
      ensures ProcOf(db.View(), p) == if ok then Worker(r, Ready(snap.value)) else Idle
      ensures ok ==> r < |db.cells| && Follows(snap.value, db.cells[r].hist.intent)
      ensures Smooth(script) ==> ok
    {
      hide WorkStep, Run, Count, Marks, Step, Follows;
      snap := None;
      ok := Refetch(r, script(1));
      if !ok { return; }
      ok := queue.MarkRunning(p, r, script(2));
      if !ok { return; }
      ok, snap := Load(r, script(3));
      if !ok { return; }
      ghost var loaded := db.trace;
      ok := Announce(r, snap.value, script(4), script(5));
      StillFollows(loaded, db.trace, r, snap.value);
    }

    method Refetch(r: ReqId, m: Moment) returns (ok: bool)
      requires db.At(p, r, Claimed) && NotBy(m.others, p)
      modifies db
      ensures db.Valid() && old(db.trace) <= db.trace && Adds(old(db.trace), db.trace, r, 0, 0)
      ensures ProcOf(db.View(), p) == if ok then Worker(r, Loaded) else Idle
      ensures ok <==> m.op.Ok?
      ensures RowsKept(old(db.trace) + m.others, db.cells, r)
    {
      hide Run, Count, Marks, Step;
      db.Others(p, m.others);
      WorkFinds(db.trace, p);
      var end := Statement(r, Claimed, Worker(r, Loaded), db.cells[r], db.world, m.op);
      ok := end.Finished?;
    }

    /** The request is always there: the REQUEST_NOT_FOUND branch is never taken, and every wallet type is supported. */
    method Load(r: ReqId, m: Moment) returns (ok: bool, snap: Option<Request>)
      requires db.At(p, r, Running) && NotBy(m.others, p)
      modifies db
      ensures db.Valid() && old(db.trace) <= db.trace && Adds(old(db.trace), db.trace, r, 0, 0)
      ensures ok ==> snap.Some?
      ensures ok <==> m.op.Ok?
      ensures r < |db.cells| && (ok ==> Follows(snap.value, db.cells[r].hist.intent))
      ensures ok ==> db.cells[r].row.Some? && snap.value == db.cells[r].row.value.request
      ensures ProcOf(db.View(), p) == if ok then Worker(r, Checked(snap.value)) else Idle
      ensures RowsKept(old(db.trace) + m.others, db.cells, r)
    {
      hide Run, Count, Marks, Step;
      db.Others(p, m.others);
      WorkFinds(db.trace, p);
      RowFollows(db.trace, r);
      snap := Some(db.cells[r].row.value.request);
      var end := Statement(r, Running, Worker(r, Checked(snap.value)), db.cells[r], db.world, m.op);
      ok := end.Finished?;
    }

    method Announce(r: ReqId, snap: Request, m1: Moment, m2: Moment) returns (ok: bool)
      requires db.At(p, r, Checked(snap)) && NotBy(m1.others, p) && NotBy(m2.others, p)
      modifies db
      ensures db.Valid() && old(db.trace) <= db.trace && Adds(old(db.trace), db.trace, r, 0, 0)
      ensures ProcOf(db.View(), p) == if ok then Worker(r, Ready(snap)) else Idle
      ensures ok <==> m1.op.Ok? && m2.op.Ok?
    {
      hide WorkStep, Run, Count, Marks, Step;
      ok := SetProcessing(r, snap, m1);
      if ok { ok := AuditStarted(r, snap, m2); }
    }

    method SetProcessing(r: ReqId, snap: Request, m: Moment) returns (ok: bool)
      requires db.At(p, r, Checked(snap)) && NotBy(m.others, p)
      modifies db
      ensures db.Valid() && old(db.trace) <= db.trace && Adds(old(db.trace), db.trace, r, 0, 0)
      ensures ProcOf(db.View(), p) == if ok then Worker(r, Started(snap)) else Idle
      ensures ok ==> r < |db.cells| && db.cells[r].row.Some? && db.cells[r].row.value.request.status.PROCESSING?
      ensures ok ==> RequestWritten(old(db.trace) + m.others, db.cells, r, (q: Request) => q.(status := PROCESSING))
      ensures ok <==> m.op.Ok?
    {
      hide Run, Count, Marks, Step;
      db.Others(p, m.others);
      WorkFinds(db.trace, p);
      var c := db.cells[r];
      var c' := if Missing(c) then c else SetRequest(c, c.row.value.request.(status := PROCESSING));
      var end := Statement(r, Checked(snap), Worker(r, Started(snap)), c', db.world, m.op);
      ok := end.Finished?;
    }

    method AuditStarted(r: ReqId, snap: Request, m: Moment) returns (ok: bool)
      requires db.At(p, r, Started(snap)) && NotBy(m.others, p)
      modifies db
      ensures db.Valid() && old(db.trace) <= db.trace && Adds(old(db.trace), db.trace, r, 0, 0)
      ensures ProcOf(db.View(), p) == if ok then Worker(r, Ready(snap)) else Idle
      ensures ok ==> IsLogged(r, LogStarted)
      ensures ok ==> AuditWritten(old(db.trace) + m.others, db.cells, r, LogStarted)
      ensures ok <==> m.op.Ok?
    {
      hide Run, Count, Marks, Step;
      db.Others(p, m.others);
      WorkFinds(db.trace, p);
      var c := db.cells[r];
      var end := Statement(r, Started(snap), Worker(r, Ready(snap)), if Missing(c) then c else AddAudit(c, LogStarted), db.world, m.op);
      ok := end.Finished?;
    }

    // ---------- the try block ----------

    /** Where the poll is after a statement of its try block. */
    ghost predicate Ends(r: ReqId, snap: Request, end: TryEnd, next: Proc)
      reads db
    {
      && db.Valid()
      && ProcOf(db.View(), p) == match end
                                 case Finished => next
                                 case Thrown => Worker(r, Caught(snap))
                                 case Dead => Idle
    }

    method BeginExecution(r: ReqId, snap: Request, m: Moment) returns (end: TryEnd)
      requires db.At(p, r, Ready(snap)) && NotBy(m.others, p)
      modifies db
      ensures Ends(r, snap, end, Worker(r, Calling(snap))) && old(db.trace) <= db.trace
      ensures Adds(old(db.trace), db.trace, r, if end.Finished? then 1 else 0, 0)
      ensures end.Finished? <==> m.op.Ok?
      ensures end.Dead? <==> m.op.Die?
      ensures RowsKept(old(db.trace) + m.others, db.cells, r)
    {
      hide Run, Count, Marks, Step;
      db.Others(p, m.others);
      WorkFinds(db.trace, p);
      var c := db.cells[r];
      var c' := c.(hist := c.hist.(calls := c.hist.calls + [Call(snap.walletId, snap.to, snap.amount)]));
      end := Statement(r, Ready(snap), Worker(r, Calling(snap)), c', db.world, m.op);
    }

    /** ExecutionRouterService.execute: the executor of the wallet's type. */
    method Execute(r: ReqId, snap: Request, script: Script, patience: nat) returns (end: TryEnd, result: Result)
      requires db.At(p, r, Calling(snap)) && Foreign(script, p)
      modifies db
      ensures Ends(r, snap, end, Worker(r, Returned(snap, result))) && old(db.trace) <= db.trace
      ensures Adds(old(db.trace), db.trace, r, 0, if end.Finished? then 1 else 0)
      ensures end.Finished? ==> (result.ExternalPending? <==> snap.walletType.MPC?)
      ensures Smooth(script) && Payable(snap.walletType, snap.to, snap.amount) ==> end.Finished?
      ensures Smooth(script) && snap.walletType.SSS? && !end.Finished? ==> r < |db.cells| && SssOutcome(end, db.cells[r], db.world)
    {
      hide WorkStep, Run, Count, Marks, Step;
      if snap.walletType.SSS? {
        end := SssExecute(r, snap, script, patience);
        result := OnChain;
      } else {
        end, result := DirectExecute(r, snap, script(7));
      }
    }

    method DirectExecute(r: ReqId, snap: Request, m: Moment) returns (end: TryEnd, result: Result)
      requires db.At(p, r, Calling(snap)) && NotBy(m.others, p) && !snap.walletType.SSS?
      modifies db
      ensures Ends(r, snap, end, Worker(r, Returned(snap, result))) && old(db.trace) <= db.trace
      ensures Adds(old(db.trace), db.trace, r, 0, if end.Finished? then 1 else 0)
      ensures end.Finished? ==> (result.ExternalPending? <==> snap.walletType.MPC?)
      ensures end.Finished? <==> m.op.Ok? && Payable(snap.walletType, snap.to, snap.amount)
      ensures end.Finished? && result.ExternalPending? ==>
                result.id < |db.world.transfers| && db.world.transfers[result.id] == Transfer(snap.to, snap.amount, Pending)
      ensures end.Dead? <==> m.op.Die?
      ensures RowsKept(old(db.trace) + m.others, db.cells, r)
    {
      hide Run, Count, Marks, Step;
      db.Others(p, m.others);
      WorkFinds(db.trace, p);
      var c, w := db.cells[r], db.world;
      var c' := c.(hist := c.hist.(successes := c.hist.successes + 1));
      if snap.walletType.MPC? {
        result := ExternalPending(|w.transfers|);
        w := w.(transfers := w.transfers + [Transfer(snap.to, snap.amount, Pending)]);
        end := Statement(r, Calling(snap), Worker(r, Returned(snap, result)), c', w, m.op);
      } else if snap.walletType.POLICY_GUARD? && !PolicyGuardV1.Check(snap.to, snap.amount) {
        result := OnChain;
        end := Statement(r, Calling(snap), Worker(r, Caught(snap)), c, w, m.op);   // the vault reverts
        if end.Finished? { end := Thrown; }
      } else {
        result := OnChain;
        end := Statement(r, Calling(snap), Worker(r, Returned(snap, result)), c', w, m.op);
      }
    }

    /** apps/api/src/wallet/executors/sss.executor.ts */
    method SssExecute(r: ReqId, snap: Request, script: Script, patience: nat) returns (end: TryEnd)
      requires db.At(p, r, Calling(snap)) && Foreign(script, p) && snap.walletType.SSS?
      modifies db
      ensures Ends(r, snap, end, Worker(r, Returned(snap, OnChain))) && old(db.trace) <= db.trace
      ensures Adds(old(db.trace), db.trace, r, 0, if end.Finished? then 1 else 0)
      ensures Smooth(script) && !end.Finished? ==> r < |db.cells| && SssOutcome(end, db.cells[r], db.world)
    {
      hide WorkStep, Run, Count, Marks, Step;
      var meta;
      end, meta := SssSend(r, snap, script, patience);
      if !end.Finished? { return; }
      end := SssStrip(r, snap, meta, script(9));
      if !end.Finished? { return; }
      end := SssAudit(r, snap, script(10));
    }

    /** Up to the receipt. */
    method SssSend(r: ReqId, snap: Request, script: Script, patience: nat) returns (end: TryEnd, meta: Meta)
      requires db.At(p, r, Calling(snap)) && Foreign(script, p) && snap.walletType.SSS?
      modifies db
      ensures Ends(r, snap, end, Worker(r, SssMined(snap, meta))) && old(db.trace) <= db.trace
      ensures Adds(old(db.trace), db.trace, r, 0, 0)
      ensures Smooth(script) ==> r < |db.cells| && SssOutcome(end, db.cells[r], db.world)
    {
      hide WorkStep, Run, Count, Marks, Step;
      end, meta := SssRead(r, snap, script(7));
      if !end.Finished? { return; }
      end := SssBroadcast(r, snap, meta, script(8));
      if !end.Finished? { return; }
      end := SssWait(r, snap, meta, script, patience);
    }

    method SssRead(r: ReqId, snap: Request, m: Moment) returns (end: TryEnd, meta: Meta)
      requires db.At(p, r, Calling(snap)) && NotBy(m.others, p) && snap.walletType.SSS?
      modifies db
      ensures Ends(r, snap, end, Worker(r, SssSigned(snap, meta))) && old(db.trace) <= db.trace
      ensures Adds(old(db.trace), db.trace, r, 0, 0)
      ensures end.Finished? ==> meta.signedTx.Some?
      ensures r < |db.cells| && (end.Finished? <==> m.op.Ok? && db.cells[r].row.Some? && db.cells[r].row.value.request.meta.signedTx.Some?)
      ensures end.Finished? || m.op.Ok? ==> db.cells[r].row.Some? && meta == db.cells[r].row.value.request.meta
      ensures end.Dead? <==> m.op.Die?
      ensures RowsKept(old(db.trace) + m.others, db.cells, r)
    {
      hide Run, Count, Marks, Step;
      db.Others(p, m.others);
      WorkFinds(db.trace, p);
      var c := db.cells[r];
      meta := if Missing(c) then snap.meta else c.row.value.request.meta;
      if meta.signedTx.None? {
        end := Statement(r, Calling(snap), Worker(r, Caught(snap)), c, db.world, m.op);
        if end.Finished? { end := Thrown; }
      } else {
        end := Statement(r, Calling(snap), Worker(r, SssSigned(snap, meta)), c, db.world, m.op);
      }
    }

    method SssBroadcast(r: ReqId, snap: Request, meta: Meta, m: Moment) returns (end: TryEnd)
      requires db.At(p, r, SssSigned(snap, meta)) && NotBy(m.others, p) && meta.signedTx.Some?
      modifies db
      ensures Ends(r, snap, end, Worker(r, SssSent(snap, meta))) && old(db.trace) <= db.trace
      ensures Adds(old(db.trace), db.trace, r, 0, 0)
      ensures end.Finished? ==> meta.signedTx.value in db.world.mempool
      ensures end.Finished? <==> m.op.Ok?
      ensures end.Dead? <==> m.op.Die?
      ensures RowsKept(old(db.trace) + m.others, db.cells, r)
    {
      hide Run, Count, Marks, Step;
      db.Others(p, m.others);
      WorkFinds(db.trace, p);
      var w := db.world.(mempool := db.world.mempool + {meta.signedTx.value});
      end := Statement(r, SssSigned(snap, meta), Worker(r, SssSent(snap, meta)), db.cells[r], w, m.op);
    }

    /** Polls for the receipt; a process that is not patient enough stops. */
    method SssWait(r: ReqId, snap: Request, meta: Meta, script: Script, patience: nat) returns (end: TryEnd)
      requires db.At(p, r, SssSent(snap, meta)) && Foreign(script, p) && meta.signedTx.Some?
      modifies db
      ensures Ends(r, snap, end, Worker(r, SssMined(snap, meta))) && old(db.trace) <= db.trace
      ensures Adds(old(db.trace), db.trace, r, 0, 0)
      ensures end.Finished? ==> Mined(meta.signedTx.value, true) in db.world.mined
      ensures Smooth(script) ==> r < |db.cells| && SssOutcome(end, db.cells[r], db.world)
      decreases patience
    {
      hide WorkStep, Run, Count, Marks, Step;
      var m := script(11 + patience);
      db.Others(p, m.others);
      WorkFinds(db.trace, p);
      StoredIsSigned(db.trace, p);
      var c, w, tx := db.cells[r], db.world, meta.signedTx.value;
      WaitMoves(w, db.now, r, snap, meta, c);
      if Mined(tx, false) in w.mined {
        end := Statement(r, SssSent(snap, meta), Worker(r, Caught(snap)), c, w, m.op);   // reverted
        if end.Finished? { end := Thrown; }
      } else if Mined(tx, true) in w.mined {
        end := Statement(r, SssSent(snap, meta), Worker(r, SssMined(snap, meta)), c, w, m.op);
      } else if patience == 0 {
        end := Statement(r, SssSent(snap, meta), Idle, c, w, Die);
      } else {
        end := Statement(r, SssSent(snap, meta), Worker(r, SssSent(snap, meta)), c, w, m.op);
        if end.Finished? { end := SssWait(r, snap, meta, script, patience - 1); }
      }
    }

    method SssStrip(r: ReqId, snap: Request, meta: Meta, m: Moment) returns (end: TryEnd)
      requires db.At(p, r, SssMined(snap, meta)) && NotBy(m.others, p)
      modifies db
      ensures Ends(r, snap, end, Worker(r, SssStripped(snap))) && old(db.trace) <= db.trace
      ensures Adds(old(db.trace), db.trace, r, 0, 0)
      ensures end.Finished? ==> r < |db.cells| && db.cells[r].row.Some? && db.cells[r].row.value.request.meta.signedTx.None?
      ensures end.Finished? ==> RequestWritten(old(db.trace) + m.others, db.cells, r, (q: Request) => q.(meta := Meta(None, meta.external)))
      ensures end.Finished? <==> m.op.Ok?
      ensures end.Dead? <==> m.op.Die?
    {
      hide Run, Count, Marks, Step;
      db.Others(p, m.others);
      WorkFinds(db.trace, p);
      var c := db.cells[r];
      var c' := if Missing(c) then c else SetRequest(c, c.row.value.request.(meta := meta.(signedTx := None)));
      end := Statement(r, SssMined(snap, meta), Worker(r, SssStripped(snap)), c', db.world, m.op);
    }

    method SssAudit(r: ReqId, snap: Request, m: Moment) returns (end: TryEnd)
      requires db.At(p, r, SssStripped(snap)) && NotBy(m.others, p)
      modifies db
      ensures Ends(r, snap, end, Worker(r, Returned(snap, OnChain))) && old(db.trace) <= db.trace
      ensures Adds(old(db.trace), db.trace, r, 0, if end.Finished? then 1 else 0)
      ensures end.Finished? ==> IsLogged(r, LogSssBroadcasted)
      ensures end.Finished? ==> AuditWritten(old(db.trace) + m.others, db.cells, r, LogSssBroadcasted)
      ensures end.Finished? <==> m.op.Ok?
      ensures end.Dead? <==> m.op.Die?
    {
      hide Run, Count, Marks, Step;
      db.Others(p, m.others);
      WorkFinds(db.trace, p);
      var c := db.cells[r];
      var c' := if Missing(c) then c else AddAudit(c, LogSssBroadcasted);
      c' := c'.(hist := c'.hist.(successes := c'.hist.successes + 1));
      end := Statement(r, SssStripped(snap), Worker(r, Returned(snap, OnChain)), c', db.world, m.op);
    }

    /** EXECUTED for a transaction on the chain; PROCESSING with the provider's id for an external transfer. */
    method RecordOutcome(r: ReqId, snap: Request, result: Result, m: Moment) returns (end: TryEnd)
      requires db.At(p, r, Returned(snap, result)) && NotBy(m.others, p)
      modifies db
      ensures Ends(r, snap, end, Worker(r, Recorded(snap, result))) && old(db.trace) <= db.trace
      ensures Adds(old(db.trace), db.trace, r, 0, 0)
      ensures
        end.Finished? ==>
          && r < |db.cells| && db.cells[r].row.Some?
          && var q := db.cells[r].row.value.request;
             if result.OnChain? then q.status.EXECUTED?
             else q.status.PROCESSING? && q.meta.external == Some(External(result.id, StillPending))
      ensures end.Finished? && result.OnChain? ==> RequestWritten(old(db.trace) + m.others, db.cells, r, (q: Request) => q.(status := EXECUTED))
      ensures end.Finished? && result.ExternalPending? ==>
                RequestWritten(old(db.trace) + m.others, db.cells, r,
                               (q: Request) => q.(status := PROCESSING, meta := Meta(snap.meta.signedTx, Some(External(result.id, StillPending)))))
      ensures end.Finished? <==> m.op.Ok?
      ensures end.Dead? <==> m.op.Die?
    {
      hide Run, Count, Marks, Step;
      db.Others(p, m.others);
      WorkFinds(db.trace, p);
      var c := db.cells[r];
      var c' := c;
      if !Missing(c) {
        var q := c.row.value.request;
        if result.OnChain? {
          q := q.(status := EXECUTED);
        } else {
          q := q.(status := PROCESSING, meta := snap.meta.(external := Some(External(result.id, StillPending))));
        }
        c' := SetRequest(c, q);
      }
      end := Statement(r, Returned(snap, result), Worker(r, Recorded(snap, result)), c', db.world, m.op);
    }

    /** One audit row, and for KMS wallets a second one. */
    method AuditOutcome(r: ReqId, snap: Request, event: AuditEvent, m1: Moment, m2: Moment) returns (end: TryEnd)
      requires db.At(p, r, Succeeded(snap, event)) && NotBy(m1.others, p) && NotBy(m2.others, p)
      modifies db
      ensures Ends(r, snap, end, Idle) && old(db.trace) <= db.trace
      ensures Adds(old(db.trace), db.trace, r, 0, 0)
      ensures end.Finished? ==> IsLogged(r, if event.LogConfirmed? && snap.walletType.KMS? then LogKmsBroadcasted else event)
      ensures end.Finished? ==> IsLogged(r, event)
      decreases if event.LogConfirmed? then 1 else 0
      ensures end.Dead? ==> m1.op.Die? || m2.op.Die?
    {
      hide Run, Count, Marks, Step;
      db.Others(p, m1.others);
      WorkerInRange(db.trace, p);
      var c := db.cells[r];
      var c' := if Missing(c) then c else AddAudit(c, event);
      if event.LogConfirmed? && snap.walletType.KMS? {
        end := Statement(r, Succeeded(snap, event), Worker(r, Succeeded(snap, LogKmsBroadcasted)), c', db.world, m1.op);
        if end.Finished? {
          ghost var confirmed := db.trace;
          end := AuditOutcome(r, snap, LogKmsBroadcasted, m2, m2);
          ApprovalTheorems.AuditOnlyGrows(confirmed, db.trace[|confirmed|..], r);
          assert confirmed + db.trace[|confirmed|..] == db.trace;
        }
      } else {
        end := Statement(r, Succeeded(snap, event), Idle, c', db.world, m1.op);
      }
    }

    /** From the result to the last audit row. */
    method Conclude(r: ReqId, snap: Request, result: Result, script: Script, patience: nat) returns (end: TryEnd)
      requires db.At(p, r, Returned(snap, result)) && Foreign(script, p) && queue.db == db
      modifies db
      ensures Ends(r, snap, end, Idle) && old(db.trace) <= db.trace
      ensures Adds(old(db.trace), db.trace, r, 0, 0)
    {
      hide WorkStep, Run, Count, Marks, Step;
      end := RecordOutcome(r, snap, result, script(12 + patience));
      if !end.Finished? { return; }
      end := queue.MarkSucceeded(p, r, snap, result, script(13 + patience));
      if !end.Finished? { return; }
      end := AuditOutcome(r, snap, if result.OnChain? then LogConfirmed else LogStarted, script(14 + patience), script(15 + patience));
    }

    /** Everything from the executor call to the last audit row; a throw anywhere leads to the catch block. */
    method TryBlock(r: ReqId, snap: Request, script: Script, patience: nat) returns (end: TryEnd, executed: bool, succeeded: bool)
      requires db.At(p, r, Ready(snap)) && Foreign(script, p) && queue.db == db
      modifies db
      ensures Ends(r, snap, end, Idle) && old(db.trace) <= db.trace
      ensures Adds(old(db.trace), db.trace, r, if executed then 1 else 0, if succeeded then 1 else 0)
      ensures succeeded ==> executed
      ensures end.Finished? ==> succeeded
      ensures Smooth(script) ==> executed
      ensures Smooth(script) && Payable(snap.walletType, snap.to, snap.amount) ==> succeeded
      ensures Smooth(script) && snap.walletType.SSS? && !succeeded ==> r < |db.cells| && SssOutcome(end, db.cells[r], db.world)
    {
      hide WorkStep, Run, Count, Marks, Step, Payable, SssOutcome;
      executed, succeeded := false, false;
      end := BeginExecution(r, snap, script(6));
      if !end.Finished? { return; }
      executed := true;
      var result;
      end, result := Execute(r, snap, script, patience);
      if !end.Finished? { return; }
      succeeded := true;
      end := Conclude(r, snap, result, script, patience);
    }

    // ---------- the catch block ----------

    method CountAttempt(r: ReqId, snap: Request, m: Moment) returns (ok: bool)
      requires db.At(p, r, Caught(snap)) && NotBy(m.others, p)
      modifies db
      ensures db.Valid() && old(db.trace) <= db.trace && Adds(old(db.trace), db.trace, r, 0, 0)
      ensures ProcOf(db.View(), p) == if ok then Worker(r, Counted(snap)) else Idle
      ensures ok ==> r < |db.cells| && AttemptCounted(db.cells[r], snap)
      ensures ok ==>
                var n := snap.retryCount + 1;
                RequestWritten(old(db.trace) + m.others, db.cells, r, (q: Request) => q.(status := if n >= 3 then FAILED else q.status, retryCount := n))
      ensures !ok ==> !m.op.Ok? || Gone(db.cells, r)
    {
      hide WorkStep, Run, Count, Marks, Step;
      db.Others(p, m.others);
      WorkerInRange(db.trace, p);
      var c := db.cells[r];
      if !Missing(c) {
        c := if snap.retryCount + 1 >= MAX_ATTEMPTS then FailedCell(c, snap.retryCount + 1) else RetriedCell(c, snap.retryCount + 1);
        CaughtMoves(db.world, db.now, r, snap, db.cells[r]);
      }
      var end := Statement(r, Caught(snap), Worker(r, Counted(snap)), c, db.world, m.op);
      ok := end.Finished?;
    }

    /** Counts the attempt, and retries the job or gives it up; the poll then only has an audit row left to write. */
    method CatchBlock(r: ReqId, snap: Request, m1: Moment, m2: Moment, m3: Moment)
      requires db.At(p, r, Caught(snap)) && NotBy(m1.others, p) && NotBy(m2.others, p) && NotBy(m3.others, p) && queue.db == db
      modifies db
      ensures db.Valid() && old(db.trace) <= db.trace && Adds(old(db.trace), db.trace, r, 0, 0)
      ensures ProcOf(db.View(), p).Idle? || (ProcOf(db.View(), p).Noting? && ProcOf(db.View(), p).before.None? && ProcOf(db.View(), p).reply.None?)
      ensures ProcOf(db.View(), p).Noting? ==> ProcOf(db.View(), p).r == r && ProcOf(db.View(), p).last == (if snap.retryCount + 1 >= 3 then LogFailed else LogRetry)
      ensures ProcOf(db.View(), p).Idle? ==> !m1.op.Ok? || !m2.op.Ok? || !m3.op.Ok? || Gone(db.cells, r)
    {
      hide WorkStep, Run, Count, Marks, Step;
      var ok := CountAttempt(r, snap, m1);
      if !ok { return; }
      if snap.retryCount + 1 >= MAX_ATTEMPTS {
        ok := queue.MarkDead(p, r, snap, m2);
      } else {
        ok := queue.MarkRetry(p, r, snap, m2, m3);
      }
    }

    method AuditFailure(m: Moment)
      requires db.Valid() && NotBy(m.others, p)
      requires ProcOf(db.View(), p).Noting? && ProcOf(db.View(), p).before.None? && ProcOf(db.View(), p).reply.None?
      modifies db
      ensures db.Valid() && old(db.trace) <= db.trace && ProcOf(db.View(), p).Idle?
      ensures
        var note := old(ProcOf(db.View(), p));
        m.op.Ok? && note.r < |db.cells| && db.cells[note.r].row.Some? ==> IsLogged(note.r, note.last)
    {
      hide Step, Run;
      db.Others(p, m.others);
      var note := ProcOf(db.View(), p);
      var _ := db.Note(p, note.r, None, note.last, None, m.op);
    }

    // ---------- a poll ----------

    /** The rest of a poll that got a job. `released` is the point at which it lets go of the job. */
    method Work(r: ReqId, script: Script, patience: nat) returns (end: PollEnd, ghost released: seq<Action>)
      requires db.At(p, r, Claimed) && Foreign(script, p) && queue.db == db
      modifies db
      ensures db.Valid() && ProcOf(db.View(), p).Idle? && old(db.trace) <= released <= db.trace
      ensures end.Polled? && end.r == r && (end.succeeded ==> end.executed)
      ensures Adds(old(db.trace), released, r, if end.executed then 1 else 0, if end.succeeded then 1 else 0)
      ensures Smooth(script) ==>
                && end.executed && r < |db.cells|
                && var i := db.cells[r].hist.intent;
                   Payable(i.wallet.walletType, i.to, i.amount) ==> end.succeeded
    {
      hide WorkStep, Run, Count, Marks, Step, Payable;
      var ok, snap := Prepare(r, script);
      released := db.trace;
      if !ok { return Polled(r, false, false), released; }
      ghost var prepared := db.trace;
      var stop, executed, succeeded := TryBlock(r, snap.value, script, patience);
      if stop.Thrown? {
        CatchBlock(r, snap.value, script(16 + patience), script(17 + patience), script(18 + patience));
      }
      released := db.trace;
      if ProcOf(db.View(), p).Noting? { AuditFailure(script(19 + patience)); }
      end := Polled(r, executed, succeeded);
      StillFollows(prepared, db.trace, r, snap.value);
    }

    /** One tick of the worker's timer. Whatever the others do between its statements, and wherever it fails: it is a
      * run of the pipeline; it leaves isProcessing as it found it; and from taking its job to letting go of it, the
      * request was executed once if the poll says so and not otherwise, and so for results. If nothing fails, it
      * finds no job only when there is none to take, it executes the one it takes, and gets the result if there is one. */
    method Poll(script: Script, patience: nat) returns (end: PollEnd, ghost released: seq<Action>)
      requires db.Valid() && queue.db == db && Foreign(script, p) && (!isProcessing ==> ProcOf(db.View(), p).Idle?)
      modifies this, db
      ensures db.Valid() && isProcessing == old(isProcessing)
      ensures old(db.trace) <= released <= db.trace
      ensures old(isProcessing) ==> end.Busy? && db.trace == old(db.trace)
      ensures !old(isProcessing) ==> !end.Busy? && ProcOf(db.View(), p).Idle?
      ensures end.Polled? ==> exists taken: seq<Action> :: old(db.trace) <= taken <= released
                                && Adds(taken, released, end.r, if end.executed then 1 else 0, if end.succeeded then 1 else 0)
                                && HeldBy(Run(Initial, taken), p, end.r)
      ensures end.Polled? && end.succeeded ==> end.executed
      ensures end.NothingToDo? && script(0).op.Ok? ==> forall r :: 0 <= r < |db.cells| ==> !Eligible(db.cells[r], db.now)
      ensures end.Polled? && Smooth(script) ==>
                && end.executed && end.r < |db.cells|
                && var i := db.cells[end.r].hist.intent;
                   Payable(i.wallet.walletType, i.to, i.amount) ==> end.succeeded
    {
      hide WorkStep, Run, Count, Marks, Step, Eligible, Payable, Smooth;
      released := db.trace;
      if isProcessing { return Busy, released; }
      isProcessing := true;
      var job := queue.ReserveNext(p, script(0));
      if job.None? {
        isProcessing := false;
        return NothingToDo, db.trace;
      }
      ghost var taken := db.trace;
      assert HeldBy(Run(Initial, taken), p, job.value);
      end, released := Work(job.value, script, patience);
      isProcessing := false;
    }
  }

  function FailedCell(c: Cell, n: nat): Cell
    requires !Missing(c)
  {
    SetRequest(c, c.row.value.request.(status := FAILED, retryCount := n))
  }

  function RetriedCell(c: Cell, n: nat): Cell
    requires !Missing(c)
  {
    SetRequest(c, c.row.value.request.(retryCount := n))
  }

  /** The request row counts the attempt of this snapshot, and is FAILED when it was the last one. */
  predicate AttemptCounted(c: Cell, snap: Request) {
    && c.row.Some? && c.row.value.request.retryCount == snap.retryCount + 1
    && (snap.retryCount + 1 >= 3 ==> c.row.value.request.status.FAILED?)
  }

  lemma CaughtMoves(w: World, now: Time, r: ReqId, snap: Request, c: Cell)
    requires !Missing(c)
    ensures
      var n := snap.retryCount + 1;
      WorkStep(w, now, r, Caught(snap), c, Ok) == Moved(Worker(r, Counted(snap)), if n >= MAX_ATTEMPTS then FailedCell(c, n) else RetriedCell(c, n), w)
  {
  }

  lemma WaitMoves(w: World, now: Time, r: ReqId, snap: Request, meta: Meta, c: Cell)
    requires !Missing(c) && meta.signedTx.Some?
    ensures
      var next := if Mined(meta.signedTx.value, false) in w.mined then Caught(snap)
                  else if Mined(meta.signedTx.value, true) in w.mined then SssMined(snap, meta)
                  else SssSent(snap, meta);
      WorkStep(w, now, r, SssSent(snap, meta), c, Ok) == Moved(Worker(r, next), c, w)
  {
  }

  lemma RereadCurrent(acts: seq<Action>, p: Pid)
    requires ProcOf(Run(Initial, acts), p).Worker? && ProcOf(Run(Initial, acts), p).pc.Reread?
    ensures
      var s := Run(Initial, acts);
      var r, pc := ProcOf(s, p).r, ProcOf(s, p).pc;
      r < |s.cells| && (!Missing(s.cells[r]) ==>
        && s.cells[r].row.value.queue.value.attemptCount == pc.attempts == pc.snap.retryCount
        && s.cells[r].row.value.request.retryCount == pc.snap.retryCount + 1)
  {
    var s := Run(Initial, acts);
    StepInvariant.Reachable(acts);
    StepInvariant.InvParts(s);
    assert ProcLink(s.world, s.now, p, s.procs[p], s.cells);
  }

}

/** What a statement that fails after a result leads to when nothing else fails: the other half of the bounds on
  * executions and of the rule that final statuses stay. */
module RetryTheorems {
  import opened Domain
  import opened Pipeline
  import opened CellInvariant
  import opened RunInvariant
  import opened StepInvariant
  import opened ExecutionTheorems
  import opened QueueTheorems
  import opened Guarantees
  import opened Ownership

  /** n statements of p that go through, with nothing in between. */
  function Onward(s: State, p: Pid, n: nat): State
    decreases n
  {
    if n == 0 then s else Onward(Step(s, Advance(p, Ok)), p, n - 1)
  }

  lemma OwnStep(s: State, p: Pid, op: Op, r: ReqId, pc: WorkerPc)
    requires ProcOf(s, p) == Worker(r, pc) && r < |s.cells|
    ensures
      var m := WorkStep(s.world, s.now, r, pc, s.cells[r], op);
      Step(s, Advance(p, op)) == s.(cells := s.cells[r := m.cell], procs := s.procs[p := m.proc], world := m.world)
  {
    hide WorkStep;
  }

  /** One more statement of p, on its request. */
  lemma Further(s: State, p: Pid, r: ReqId, pc: WorkerPc, n: nat)
    requires ProcOf(s, p) == Worker(r, pc) && r < |s.cells| && n > 0
    ensures
      var m := WorkStep(s.world, s.now, r, pc, s.cells[r], Ok);
      Onward(s, p, n) == Onward(s.(cells := s.cells[r := m.cell], procs := s.procs[p := m.proc], world := m.world), p, n - 1)
  {
    hide WorkStep, Step;
    OwnStep(s, p, Ok, r, pc);
  }

  lemma CaughtMove(w: World, now: Time, r: ReqId, snap: Request, c: Cell)
    requires !Missing(c)
    ensures
      var q, n := c.row.value.request, snap.retryCount + 1;
      WorkStep(w, now, r, Caught(snap), c, Ok)
      == Moved(Worker(r, Counted(snap)), SetRequest(c, if n >= 3 then q.(status := FAILED, retryCount := n) else q.(retryCount := n)), w)
  {
  }

  lemma CountedMove(w: World, now: Time, r: ReqId, snap: Request, c: Cell)
    requires !Missing(c)
    ensures
      var j := c.row.value.queue.value;
      WorkStep(w, now, r, Counted(snap), c, Ok)
      == if snap.retryCount + 1 >= 3 then Moved(Noting(r, None, LogFailed, None), SetJob(c, j.(status := DEAD)), w)
         else Moved(Worker(r, Reread(snap, j.attemptCount)), c, w)
  {
  }

  lemma RereadMove(w: World, now: Time, r: ReqId, snap: Request, attempts: nat, c: Cell)
    requires !Missing(c)
    ensures
      WorkStep(w, now, r, Reread(snap, attempts), c, Ok)
      == Moved(Noting(r, None, LogRetry, None),
               SetJob(c, c.row.value.queue.value.(status := RETRY_WAIT, attemptCount := attempts + 1, availableAt := now + 30_000)), w)
  {
  }

  /** A statement fails after a result: the poll goes to its catch block with the row as it is. */
  lemma FaultMove(w: World, now: Time, r: ReqId, pc: WorkerPc, c: Cell)
    requires !Missing(c) && AfterReturn(pc)
    ensures
      WorkStep(w, now, r, pc, c, Fault)
      == Moved(Worker(r, Caught(pc.snap)), c.(hist := c.hist.(lateFaults := c.hist.lateFaults + 1)), w)
  {
  }

  /** After such a fault on the first or second attempt, the catch block puts the job back into the queue, whatever status
    * the request had reached: SUCCEEDED and EXECUTED do not stop it. */
  lemma LateFaultRequeues(s: State, p: Pid, r: ReqId)
    requires HeldBy(s, p, r) && r < |s.cells| && !Missing(s.cells[r]) && AfterReturn(ProcOf(s, p).pc) && ProcOf(s, p).pc.snap.retryCount < 2
    ensures
      var s' := Onward(Step(s, Advance(p, Fault)), p, 3);
      && |s'.cells| == |s.cells| && s'.now == s.now && !Missing(s'.cells[r]) && ProcOf(s', p) == Noting(r, None, LogRetry, None)
      && var row, row' := s.cells[r].row.value, s'.cells[r].row.value;
         && row'.request == row.request.(retryCount := ProcOf(s, p).pc.snap.retryCount + 1)
         && row'.queue.value.status.RETRY_WAIT? && row'.queue.value.availableAt == s.now + 30_000
  {
    hide WorkStep, Step;
    var pc := ProcOf(s, p).pc;
    var snap := pc.snap;
    OwnStep(s, p, Fault, r, pc);
    FaultMove(s.world, s.now, r, pc, s.cells[r]);
    var s1 := Step(s, Advance(p, Fault));
    Further(s1, p, r, Caught(snap), 3);
    CaughtMove(s1.world, s1.now, r, snap, s1.cells[r]);
    var m1 := WorkStep(s1.world, s1.now, r, Caught(snap), s1.cells[r], Ok);
    var s2 := s1.(cells := s1.cells[r := m1.cell], procs := s1.procs[p := m1.proc], world := m1.world);
    Further(s2, p, r, Counted(snap), 2);
    CountedMove(s2.world, s2.now, r, snap, s2.cells[r]);
    var m2 := WorkStep(s2.world, s2.now, r, Counted(snap), s2.cells[r], Ok);
    var s3 := s2.(cells := s2.cells[r := m2.cell], procs := s2.procs[p := m2.proc], world := m2.world);
    Further(s3, p, r, m2.proc.pc, 1);
    RereadMove(s3.world, s3.now, r, snap, m2.proc.pc.attempts, s3.cells[r]);
  }

  /** On the third attempt it fails the request instead, also one that is EXECUTED, and the job is DEAD. */
  lemma LateFaultFails(s: State, p: Pid, r: ReqId)
    requires HeldBy(s, p, r) && r < |s.cells| && !Missing(s.cells[r]) && AfterReturn(ProcOf(s, p).pc) && ProcOf(s, p).pc.snap.retryCount >= 2
    ensures
      var s' := Onward(Step(s, Advance(p, Fault)), p, 2);
      && |s'.cells| == |s.cells| && !Missing(s'.cells[r])
      && s'.cells[r].row.value.request.status.FAILED? && s'.cells[r].row.value.queue.value.status.DEAD?
  {
    hide WorkStep, Step;
    var pc := ProcOf(s, p).pc;
    var snap := pc.snap;
    OwnStep(s, p, Fault, r, pc);
    FaultMove(s.world, s.now, r, pc, s.cells[r]);
    var s1 := Step(s, Advance(p, Fault));
    Further(s1, p, r, Caught(snap), 2);
    CaughtMove(s1.world, s1.now, r, snap, s1.cells[r]);
    var m1 := WorkStep(s1.world, s1.now, r, Caught(snap), s1.cells[r], Ok);
    var s2 := s1.(cells := s1.cells[r := m1.cell], procs := s1.procs[p := m1.proc], world := m1.world);
    Further(s2, p, r, Counted(snap), 1);
    CountedMove(s2.world, s2.now, r, snap, s2.cells[r]);
  }

  // ---------- taken again ----------

  /** A poll's next statement between the reservation and the executor call. */
  function NextPc(pc: WorkerPc, q: Request): WorkerPc {
    match pc
    case Claimed => Loaded
    case Loaded => Running
    case Running => Checked(q)
    case Checked(snap) => Started(snap)
    case Started(snap) => Ready(snap)
    case Ready(snap) => Calling(snap)
    case _ => pc
  }

  function Distance(pc: WorkerPc): nat {
    match pc
    case Claimed => 6
    case Loaded => 5
    case Running => 4
    case Checked(_) => 3
    case Started(_) => 2
    case Ready(_) => 1
    case _ => 0
  }

  lemma BeginMove(w: World, now: Time, r: ReqId, pc: WorkerPc, c: Cell)
    requires !Missing(c) && Distance(pc) > 0
    ensures
      var m := WorkStep(w, now, r, pc, c, Ok);
      && m.proc == Worker(r, NextPc(pc, c.row.value.request)) && !Missing(m.cell)
      && |m.cell.hist.calls| == |c.hist.calls| + if pc.Ready? then 1 else 0
  {
  }

  lemma {:induction false} BeginsExecution(s: State, p: Pid, r: ReqId)
    requires HeldBy(s, p, r) && r < |s.cells| && !Missing(s.cells[r]) && Distance(ProcOf(s, p).pc) > 0
    ensures
      var s' := Onward(s, p, Distance(ProcOf(s, p).pc));
      HeldBy(s', p, r) && ProcOf(s', p).pc.Calling? && r < |s'.cells| && |s'.cells[r].hist.calls| == |s.cells[r].hist.calls| + 1
    decreases Distance(ProcOf(s, p).pc)
  {
    hide WorkStep, Step;
    var pc := ProcOf(s, p).pc;
    Further(s, p, r, pc, Distance(pc));
    BeginMove(s.world, s.now, r, pc, s.cells[r]);
    var m := WorkStep(s.world, s.now, r, pc, s.cells[r], Ok);
    var s1 := s.(cells := s.cells[r := m.cell], procs := s.procs[p := m.proc], world := m.world);
    if !pc.Ready? { BeginsExecution(s1, p, r); }
  }

  lemma ReserveGives(s: State, p: Pid, r: ReqId)
    requires QueueInv(s) && ProcOf(s, p).Idle? && Oldest(s.cells, s.now) == Some(r) && r < |s.cells|
    ensures
      var s' := Step(s, Reserve(p));
      ProcOf(s', p) == Worker(r, Claimed) && |s'.cells| == |s.cells| && !Missing(s'.cells[r]) && s'.cells[r].hist == s.cells[r].hist
  {
    assert TicketInv(s, s.cells[r], r);
  }

  lemma OldestIs(s: State, r: ReqId)
    requires QueueInv(s) && r < |s.cells| && Eligible(s.cells[r], s.now)
    requires forall i :: 0 <= i < |s.cells| && Eligible(s.cells[i], s.now) ==> Ticket(s.cells[r]) <= Ticket(s.cells[i])
    ensures Oldest(s.cells, s.now) == Some(r)
  {
    var found := Oldest(s.cells, s.now).value;
    assert TicketInv(s, s.cells[r], r) && TicketInv(s, s.cells[found], found);
  }

  /** A job that waits, and whose time has come, is executed by the next poll if none of the jobs inserted before it waits
    * in the same way: so a job put back after a result is executed a second time. */
  lemma EligibleIsExecuted(acts: seq<Action>, p: Pid, r: ReqId)
    requires ProcOf(Run(Initial, acts), p).Idle? && r < |Run(Initial, acts).cells| && !Missing(Run(Initial, acts).cells[r])
    requires
      var s := Run(Initial, acts);
      var job := s.cells[r].row.value.queue.value;
      && (job.status.WAITING? || (job.status.RETRY_WAIT? && job.availableAt <= s.now))
      && forall i :: 0 <= i < |s.cells| && !Missing(s.cells[i]) ==>
           var other := s.cells[i].row.value.queue.value;
           other.status.WAITING? || (other.status.RETRY_WAIT? && other.availableAt <= s.now) ==> job.ticket <= other.ticket
    ensures
      var s, s' := Run(Initial, acts), Onward(Step(Run(Initial, acts), Reserve(p)), p, 6);
      HeldBy(s', p, r) && ProcOf(s', p).pc.Calling? && r < |s'.cells| && |s'.cells[r].hist.calls| == |s.cells[r].hist.calls| + 1
  {
    hide Run, Step, Oldest, Onward;
    Reachable(acts);
    InvParts(Run(Initial, acts));
    OldestIs(Run(Initial, acts), r);
    ReserveGives(Run(Initial, acts), p, r);
    BeginsExecution(Step(Run(Initial, acts), Reserve(p)), p, r);
  }

  // ---------- and not earlier ----------

  const PAUSE: Time := 30_000

  /** Since time t0 request r is being executed or waits to be executed again: before t0 + 30 s nobody takes its job, and
    * nobody is about to call its executor. */
  ghost predicate Pausing(s: State, r: ReqId, t0: Time) {
    && r < |s.cells| && t0 <= s.now
    && (s.cells[r].row.None?
        || t0 + PAUSE <= s.now
        || (!Missing(s.cells[r])
            && var j := s.cells[r].row.value.queue.value;
               if Reservable(j) then j.status.RETRY_WAIT? && t0 + PAUSE <= j.availableAt
               else forall p :: HeldBy(s, p, r) ==> Begun(ProcOf(s, p).pc)))
  }

  /** The executor was called. */
  predicate Begun(pc: WorkerPc) { Distance(pc) == 0 }

  lemma TimeGrows(s: State, a: Action)
    ensures s.now <= Step(s, a).now
  {
    hide WorkStep, NoteStep, SettleStep, ExpireStep, ApproveTx, RejectTx;
  }

  /** A poll that has called the executor calls no other; if it puts the job back, then for 30 s from now on. */
  lemma BegunStays(w: World, now: Time, p: Pid, r: ReqId, pc: WorkerPc, c: Cell, op: Op)
    requires WorkerLink(w, p, pc, c) && !Missing(c) && Begun(pc)
    ensures
      var m := WorkStep(w, now, r, pc, c, op);
      && !Missing(m.cell) && (m.proc.Worker? ==> Begun(m.proc.pc))
      && (Reservable(m.cell.row.value.queue.value) ==>
            && m.cell.row.value.queue.value.status.RETRY_WAIT? && now + PAUSE <= m.cell.row.value.queue.value.availableAt)
  {
  }

  lemma PausingWorks(s: State, a: Action, r: ReqId, t0: Time)
    requires Inv(s) && Pausing(s, r, t0) && WorksOn(s, a, r) && s.cells[r].row.Some?
    ensures Pausing(Step(s, a), r, t0)
  {
    hide Inv, CellInv, WorkerLink, Step, WorkStep, Begun;
    InvParts(s);
    assert ProcLink(s.world, s.now, a.p, s.procs[a.p], s.cells);
    OwnerNamed(s, r, a.p);
    TimeGrows(s, a);
    var pc := ProcOf(s, a.p).pc;
    OwnStep(s, a.p, a.op, r, pc);
    if s.now < t0 + PAUSE {
      BegunStays(s.world, s.now, a.p, r, pc, s.cells[r], a.op);
      forall q | HeldBy(Step(s, a), q, r) ensures Begun(ProcOf(Step(s, a), q).pc) {
        if q != a.p { OwnerNamed(s, r, q); }
      }
    }
  }

  lemma TakenWaited(s: State, a: Action, r: ReqId)
    requires Takes(s, a, r) && r < |s.cells| && !Missing(s.cells[r]) && s.cells[r].row.value.queue.value.status.RETRY_WAIT?
    ensures s.cells[r].row.value.queue.value.availableAt <= s.now
  {
  }

  lemma PausingStep(s: State, a: Action, r: ReqId, t0: Time)
    requires Inv(s) && Pausing(s, r, t0)
    ensures Pausing(Step(s, a), r, t0)
  {
    hide Inv, CellInv, Step, Takes, Begun;
    InvParts(s);
    StepGuards(s, a, r);
    TimeGrows(s, a);
    if s.cells[r].row.None? {
      GoneStays(Actor(a), s.cells[r], Step(s, a).cells[r]);
    } else if WorksOn(s, a, r) {
      PausingWorks(s, a, r, t0);
    } else if s.now < t0 + PAUSE {
      if !Reservable(s.cells[r].row.value.queue.value) { NotTaken(s, a, r); }
      else if Takes(s, a, r) { TakenWaited(s, a, r); }
      StepLeaves(s, a, r);
    }
  }

  lemma GoneStays(p: Pid, c: Cell, c': Cell)
    requires Guar(p, c, c') && c.row.None?
    ensures c'.row.None?
  {
  }

  lemma {:induction false} PausingLasts(acts: seq<Action>, more: seq<Action>, r: ReqId, t0: Time)
    requires Pausing(Run(Initial, acts), r, t0)
    ensures Pausing(Run(Initial, acts + more), r, t0)
  {
    hide Run, Step, Inv, Pausing;
    if |more| == 0 {
      assert acts + more == acts;
    } else {
      var m, a := more[..|more| - 1], more[|more| - 1];
      PausingLasts(acts, m, r, t0);
      assert acts + more == acts + m + [a];
      Reachable(acts + m);
      RunSnoc(Initial, acts + m, a);
      PausingStep(Run(Initial, acts + m), a, r, t0);
    }
  }

  /** A step by which the poll on request r puts its job back. */
  predicate PutsBack(s: State, a: Action, r: ReqId) {
    && WorksOn(s, a, r) && r < |Step(s, a).cells| && !Missing(Step(s, a).cells[r])
    && Step(s, a).cells[r].row.value.queue.value.status.RETRY_WAIT?
  }

  /** A step by which some poll gets it. */
  predicate Gets(s: State, a: Action, r: ReqId) { a.Reserve? && !HeldBy(s, a.p, r) && HeldBy(Step(s, a), a.p, r) }

  lemma PutBackPauses(acts: seq<Action>, a: Action, r: ReqId)
    requires PutsBack(Run(Initial, acts), a, r)
    ensures Pausing(Run(Initial, acts + [a]), r, Run(Initial, acts).now)
  {
    hide Run, Step, CellInv, WorkerLink, WorkStep;
    var s := Run(Initial, acts);
    Reachable(acts);
    InvParts(s);
    RunSnoc(Initial, acts, a);
    assert ProcLink(s.world, s.now, a.p, s.procs[a.p], s.cells);
    TimeGrows(s, a);
    OwnStep(s, a.p, a.op, r, ProcOf(s, a.p).pc);
    WrittenBack(s.world, s.now, a.p, r, ProcOf(s, a.p).pc, s.cells[r], a.op);
  }

  lemma WrittenBack(w: World, now: Time, p: Pid, r: ReqId, pc: WorkerPc, c: Cell, op: Op)
    requires WorkerLink(w, p, pc, c) && !Missing(WorkStep(w, now, r, pc, c, op).cell)
    requires WorkStep(w, now, r, pc, c, op).cell.row.value.queue.value.status.RETRY_WAIT?
    ensures now + PAUSE <= WorkStep(w, now, r, pc, c, op).cell.row.value.queue.value.availableAt
  {
  }

  /** A job that was put back is taken again at least 30 s later, by whichever poll. */
  lemma RetriesWait(acts: seq<Action>, a: Action, more: seq<Action>, b: Action, r: ReqId)
    requires PutsBack(Run(Initial, acts), a, r) && Gets(Run(Initial, acts + [a] + more), b, r)
    ensures Run(Initial, acts + [a] + more).now >= Run(Initial, acts).now + 30_000
  {
    hide Run, Step, CellInv, Pausing;
    var s := Run(Initial, acts + [a] + more);
    PutBackPauses(acts, a, r);
    PausingLasts(acts + [a], more, r, Run(Initial, acts).now);
    NewWorker(s, b, b.p, r);
    TakenIsDue(s, b, r, Run(Initial, acts).now);
  }

  lemma TakenIsDue(s: State, a: Action, r: ReqId, t0: Time)
    requires Pausing(s, r, t0) && Takes(s, a, r)
    ensures t0 + PAUSE <= s.now
  {
  }

  lemma ExecutionPauses(acts: seq<Action>, a: Action, r: ReqId)
    requires Marks(Run(Initial, acts), a, r, Execution)
    ensures Pausing(Run(Initial, acts + [a]), r, Run(Initial, acts).now)
  {
    hide Run, Step, CellInv, Inv, WorkStep;
    var s := Run(Initial, acts);
    Reachable(acts);
    InvParts(s);
    RunSnoc(Initial, acts, a);
    assert ProcLink(s.world, s.now, a.p, s.procs[a.p], s.cells);
    TimeGrows(s, a);
    var pc := ProcOf(s, a.p).pc;
    OwnStep(s, a.p, a.op, r, pc);
    CallMove(s.world, s.now, a.p, r, pc, s.cells[r], a.op);
    forall q | HeldBy(Step(s, a), q, r) ensures Begun(ProcOf(Step(s, a), q).pc) {
      if q != a.p {
        OwnerNamed(s, r, q);
        OwnerNamed(s, r, a.p);
      }
    }
  }

  lemma CallMove(w: World, now: Time, p: Pid, r: ReqId, pc: WorkerPc, c: Cell, op: Op)
    requires WorkerLink(w, p, pc, c) && pc.Ready?
    requires WorkStep(w, now, r, pc, c, op).proc.Worker? && WorkStep(w, now, r, pc, c, op).proc.pc.Calling?
    ensures c.row.Some? && !Missing(WorkStep(w, now, r, pc, c, op).cell)
    ensures !Reservable(WorkStep(w, now, r, pc, c, op).cell.row.value.queue.value)
  {
  }

  /** Two executions of one request are at least 30 s apart, whichever polls make them. */
  lemma ExecutionsSpaced(acts: seq<Action>, a: Action, more: seq<Action>, b: Action, r: ReqId)
    requires Marks(Run(Initial, acts), a, r, Execution) && Marks(Run(Initial, acts + [a] + more), b, r, Execution)
    ensures Run(Initial, acts + [a] + more).now >= Run(Initial, acts).now + 30_000
  {
    hide Run, Step, CellInv, Inv;
    var s := Run(Initial, acts + [a] + more);
    ExecutionPauses(acts, a, r);
    PausingLasts(acts + [a], more, r, Run(Initial, acts).now);
    Reachable(acts + [a] + more);
    InvParts(s);
    assert ProcLink(s.world, s.now, b.p, s.procs[b.p], s.cells);
    OwnStep(s, b.p, b.op, r, ProcOf(s, b.p).pc);
    CallMove(s.world, s.now, b.p, r, ProcOf(s, b.p).pc, s.cells[r], b.op);
    OwnerNamed(s, r, b.p);
  }
}

/** The queue over whole runs: order of first reservations, bounded overtaking, abandoned jobs, termination of
  * the retries, and how a drained queue ends. */
module QueueTheorems {
  import opened Domain
  import opened Pipeline
  import opened CellInvariant
  import opened RunInvariant
  import opened StepInvariant
  import opened Guarantees
  import opened ExecutionTheorems

  // ---------- order ----------

  function Sum(v: seq<nat>): nat {
    if |v| == 0 then 0 else Sum(v[..|v| - 1]) + v[|v| - 1]
  }

  lemma {:induction false} SumUpdate(v: seq<nat>, t: nat)
    requires t < |v|
    ensures Sum(v[t := v[t] + 1]) == Sum(v) + 1
  {
    var u := v[t := v[t] + 1];
    if t == |v| - 1 {
      assert u[..|u| - 1] == v[..|v| - 1];
    } else {
      SumUpdate(v[..|v| - 1], t);
      assert u[..|u| - 1] == v[..|v| - 1][t := v[t] + 1];
    }
  }

  lemma SumAppend(v: seq<nat>)
    ensures Sum(v + [0]) == Sum(v)
  {
    assert (v + [0])[..|v|] == v;
  }

  /** At most `most` each up to position t, and nothing from there on. */
  lemma {:induction false} SumBound(v: seq<nat>, t: nat, most: nat)
    requires t <= |v|
    requires forall i :: 0 <= i < |v| ==> v[i] <= if i < t then most else 0
    ensures Sum(v) <= most * t
  {
    if |v| > 0 {
      var n := |v| - 1;
      if t == |v| {
        SumBound(v[..n], n, most);
        assert most * t == most * n + most;
      } else {
        SumBound(v[..n], t, most);
      }
    }
  }

  predicate Reserves(s: State, a: Action) {
    a.Reserve? && ProcOf(s, a.p).Idle? && ProcOf(Step(s, a), a.p).Worker?
  }

  /** How many reservations the queue has made in a run. */
  function Reservations(acts: seq<Action>): nat {
    if |acts| == 0 then 0
    else Reservations(acts[..|acts| - 1]) + if Reserves(Run(Initial, acts[..|acts| - 1]), acts[|acts| - 1]) then 1 else 0
  }

  lemma AdvanceResv(s: State, p: Pid, op: Op)
    ensures AdvanceStep(s, p, op).resv == s.resv || AdvanceStep(s, p, op).resv == s.resv + [0]
  {
  }

  lemma StepSum(s: State, a: Action)
    requires QueueInv(s)
    ensures Sum(Step(s, a).resv) == Sum(s.resv) + if Reserves(s, a) then 1 else 0
  {
    SumAppend(s.resv);
    hide AdvanceStep;
    if a.Advance? { AdvanceResv(s, a.p, a.op); }
    if a.Reserve? && Oldest(s.cells, s.now).Some? {
      var c := s.cells[Oldest(s.cells, s.now).value];
      if Ticket(c) < |s.resv| { SumUpdate(s.resv, Ticket(c)); }
    }
  }

  lemma {:induction false} ReservationsAreSum(acts: seq<Action>)
    ensures Reservations(acts) == Sum(Run(Initial, acts).resv)
  {
    hide Step, Reserves;
    if |acts| > 0 {
      RunLast(Initial, acts);
      var before := acts[..|acts| - 1];
      ReservationsAreSum(before);
      Reachable(before);
      InvParts(Run(Initial, before));
      StepSum(Run(Initial, before), acts[|acts| - 1]);
    }
  }

  /** Jobs are first reserved in the order of insertion. */
  lemma FirstComeFirstServed(acts: seq<Action>, t: nat, u: nat)
    requires t < u < |Run(Initial, acts).resv| && Run(Initial, acts).resv[u] > 0
    ensures Run(Initial, acts).resv[t] > 0
  {
    Reachable(acts);
    InvParts(Run(Initial, acts));
  }

  /** As long as the t-th queue row (from 0) waits for its first reservation, it is in the queue and reservable,
    * and the whole queue has made at most three reservations for each of the t older rows and none for younger ones. */
  lemma BoundedOvertaking(acts: seq<Action>, t: nat)
    requires t < |Run(Initial, acts).resv| && Run(Initial, acts).resv[t] == 0
    ensures Reservations(acts) <= 3 * t
    ensures
      var s := Run(Initial, acts);
      && t < |s.tickets| && s.tickets[t] < |s.cells| && !Missing(s.cells[s.tickets[t]])
      && var job := s.cells[s.tickets[t]].row.value.queue.value; job.ticket == t && job.status.WAITING?
  {
    hide CellInv, QueueInv, Run, Sum;
    Reachable(acts);
    InvParts(Run(Initial, acts));
    ReservationsAreSum(acts);
    Overtaken(Run(Initial, acts), t);
  }

  lemma Overtaken(s: State, t: nat)
    requires QueueInv(s) && t < |s.resv| && s.resv[t] == 0
    ensures Sum(s.resv) <= 3 * t
    ensures
      && t < |s.tickets| && s.tickets[t] < |s.cells| && !Missing(s.cells[s.tickets[t]])
      && var job := s.cells[s.tickets[t]].row.value.queue.value; job.ticket == t && job.status.WAITING?
  {
    assert Unreserved(s, t);
    SumBound(s.resv, t, 3);
  }

  // ---------- who touches a queue row ----------

  predicate Takes(s: State, a: Action, r: ReqId) {
    a.Reserve? && ProcOf(s, a.p).Idle? && Oldest(s.cells, s.now) == Some(r)
  }

  /** Only the poll that works on a request, a reservation of it, and the cleanup change its queue row. */
  ghost predicate LeavesJob(s: State, s': State, r: ReqId)
    requires r < |s.cells|
  {
    && r < |s'.cells|
    && (s'.cells[r].row.None? || (s.cells[r].row.Some? && s'.cells[r].row.value.queue == s.cells[r].row.value.queue))
    && (forall q :: HeldBy(s', q, r) ==> ProcOf(s', q) == ProcOf(s, q))
  }

  lemma AdvanceLeaves(s: State, p: Pid, op: Op, r: ReqId)
    requires r < |s.cells| && !Missing(s.cells[r]) && !HeldBy(s, p, r)
    ensures LeavesJob(s, AdvanceStep(s, p, op), r)
  {
    hide WorkStep, ProcLink;
    var proc := ProcOf(s, p);
    if proc.Worker? { WorkLeaves(s, p, op, r); }
  }

  lemma WorkLeaves(s: State, p: Pid, op: Op, r: ReqId)
    requires r < |s.cells| && !HeldBy(s, p, r) && ProcOf(s, p).Worker?
    ensures LeavesJob(s, AdvanceStep(s, p, op), r)
  {
    var proc := ProcOf(s, p);
    if proc.r < |s.cells| {
      assert !HeldBy(AdvanceStep(s, p, op), p, r) by { WorkStays(s.world, s.now, proc.r, proc.pc, s.cells[proc.r], op); }
    }
  }

  lemma WorkStays(w: World, now: Time, r: ReqId, pc: WorkerPc, c: Cell, op: Op)
    ensures var m := WorkStep(w, now, r, pc, c, op); m.proc.Worker? ==> m.proc.r == r
  {
  }

  lemma StartLeaves(s: State, a: Action, r: ReqId)
    requires Inv(s) && r < |s.cells| && !Missing(s.cells[r]) && !Takes(s, a, r)
    requires a.Reserve? || a.Settle? || a.Expire? || a.Approve? || a.Reject? || a.Withdraw?
    ensures LeavesJob(s, StartStep(s, a), r)
  {
    hide CellInv, Inv;
    InvParts(s);
    assert CellInv(s.world, s.now, s.cells[r]);
    QueuedNotPending(s.world, s.now, s.cells[r]);
  }

  lemma QueuedNotPending(w: World, now: Time, c: Cell)
    requires CellInv(w, now, c) && !Missing(c)
    ensures !c.row.value.request.status.PENDING?
  {
  }

  lemma StepLeaves(s: State, a: Action, r: ReqId)
    requires Inv(s) && r < |s.cells| && !Missing(s.cells[r]) && !WorksOn(s, a, r) && !Takes(s, a, r)
    ensures LeavesJob(s, Step(s, a), r)
  {
    hide Inv, AdvanceStep, StartStep;
    match a
    case Advance(p, op) => AdvanceLeaves(s, p, op, r);
    case Reserve(_) => StartLeaves(s, a, r);
    case Settle(_, _) => StartLeaves(s, a, r);
    case Expire(_, _) => StartLeaves(s, a, r);
    case Approve(_, _, _, _) => StartLeaves(s, a, r);
    case Reject(_, _, _) => StartLeaves(s, a, r);
    case Withdraw(_, _) => StartLeaves(s, a, r);
    case _ =>
  }

  // ---------- abandoned jobs ----------

  /** A job that a poll took and dropped: RESERVED or RUNNING, with nobody at work on it. */
  ghost predicate Abandoned(s: State, r: ReqId) {
    && r < |s.cells| && !Missing(s.cells[r])
    && (s.cells[r].row.value.queue.value.status.RESERVED? || s.cells[r].row.value.queue.value.status.RUNNING?)
    && forall p :: !HeldBy(s, p, r)
  }

  /** Nobody ever picks an abandoned job up again: its queue row stays as it is for good. */
  lemma {:induction false} AbandonedForever(s: State, more: seq<Action>, r: ReqId)
    requires Inv(s) && Abandoned(s, r)
    ensures Abandoned(Run(s, more), r) && Run(s, more).cells[r].row.value.queue == s.cells[r].row.value.queue
  {
    hide Inv, Step, Takes;
    if |more| > 0 {
      RunLast(s, more);
      var m, a := more[..|more| - 1], more[|more| - 1];
      AbandonedForever(s, m, r);
      RunKeeps(s, m);
      var s1 := Run(s, m);
      assert !Takes(s1, a, r) by { NotTaken(s1, a, r); }
      StepLeaves(s1, a, r);
      StepGuards(s1, a, r);
      assert Step(s1, a).cells[r].row.Some? by { InFlightStays(s1, a, r); }
      assert forall p :: HeldBy(Step(s1, a), p, r) ==> HeldBy(s1, p, r);
    }
  }

  lemma NotTaken(s: State, a: Action, r: ReqId)
    requires r < |s.cells| && !Missing(s.cells[r]) && !Reservable(s.cells[r].row.value.queue.value)
    ensures !Takes(s, a, r)
  {
  }

  lemma InFlightStays(s: State, a: Action, r: ReqId)
    requires r < |s.cells| && s.cells[r].row.Some? && InFlight(s.cells[r].row.value)
    requires r < |Step(s, a).cells| && Guar(Actor(a), s.cells[r], Step(s, a).cells[r])
    ensures Step(s, a).cells[r].row.Some?
  {
  }

  // ---------- termination ----------

  const WORK_PER_ATTEMPT: nat := 20

  /** Statements that a poll at this point may still make before it lets go of the job. */
  function Stage(pc: WorkerPc): (n: nat)
    ensures 1 <= n < WORK_PER_ATTEMPT
  {
    match pc
    case Claimed => 18
    case Loaded => 17
    case Running => 16
    case Checked(_) => 15
    case Started(_) => 14
    case Ready(_) => 13
    case Calling(_) => 12
    case SssSigned(_, _) => 11
    case SssSent(_, _) => 10
    case SssMined(_, _) => 9
    case SssStripped(_) => 8
    case Returned(_, _) => 7
    case Recorded(_, _) => 6
    case Succeeded(_, event) => if event.LogConfirmed? then 5 else 4
    case Caught(_) => 3
    case Counted(_) => 2
    case Reread(_, _) => 1
  }

  /** The work that is left in a job: the attempts it still has, and the rest of the one in progress. */
  function Level(s: State, r: ReqId): nat
    requires r < |s.cells|
  {
    if Missing(s.cells[r]) then 0
    else
      var j := s.cells[r].row.value.queue.value;
      var left := if j.attemptCount < MAX_ATTEMPTS then MAX_ATTEMPTS - j.attemptCount else 0;
      if Reservable(j) then WORK_PER_ATTEMPT * left
      else if j.workerId.Some? && HeldBy(s, j.workerId.value, r) && left > 0
      then WORK_PER_ATTEMPT * (left - 1) + Stage(ProcOf(s, j.workerId.value).pc)
      else 0
  }

  /** A poll that only waits for its transaction to be mined. */
  predicate Waits(s: State, a: Action, r: ReqId) {
    WorksOn(s, a, r) && ProcOf(s, a.p).pc.SssSent? && ProcOf(Step(s, a), a.p) == ProcOf(s, a.p)
  }

  /** A step that takes the job of request r, or works on it. */
  predicate Works(s: State, a: Action, r: ReqId) {
    && r < |s.cells| && !Missing(s.cells[r])
    && (Takes(s, a, r) || (WorksOn(s, a, r) && !Waits(s, a, r)))
  }

  predicate Lowers(p: Pid, r: ReqId, pc: WorkerPc, c: Cell, m: Moved)
    requires !Missing(c)
  {
    && !Missing(m.cell)
    && var j, j' := c.row.value.queue.value, m.cell.row.value.queue.value;
       if Reservable(j') then !m.proc.Worker? && j'.attemptCount == j.attemptCount + 1
       else
         && j'.attemptCount == j.attemptCount && j'.workerId == j.workerId == Some(p)
         && (m.proc.Worker? ==> Stage(m.proc.pc) < Stage(pc) || (pc.SssSent? && m.proc == Worker(r, pc)))
  }

  lemma PlainLowers(w: World, now: Time, p: Pid, r: ReqId, pc: WorkerPc, c: Cell)
    requires WorkerLink(w, p, pc, c) && !Missing(c) && !InTry(pc)
    ensures Lowers(p, r, pc, c, PlainStep(w, now, r, pc, c))
  {
  }

  lemma TryLowers(w: World, p: Pid, r: ReqId, pc: WorkerPc, c: Cell)
    requires WorkerLink(w, p, pc, c) && !Missing(c) && InTry(pc)
    ensures Lowers(p, r, pc, c, TryStep(w, r, pc, c))
  {
  }

  lemma WorkLowers(w: World, now: Time, p: Pid, r: ReqId, pc: WorkerPc, c: Cell, op: Op)
    requires WorkerLink(w, p, pc, c) && !Missing(c)
    ensures Lowers(p, r, pc, c, WorkStep(w, now, r, pc, c, op))
  {
    hide PlainStep, TryStep;
    if op.Ok? {
      if InTry(pc) { TryLowers(w, p, r, pc, c); } else { PlainLowers(w, now, p, r, pc, c); }
    }
  }

  lemma WorkLevel(s: State, p: Pid, op: Op, r: ReqId)
    requires Inv(s) && r < |s.cells| && !Missing(s.cells[r]) && HeldBy(s, p, r)
    ensures r < |AdvanceStep(s, p, op).cells|
    ensures Level(AdvanceStep(s, p, op), r) < Level(s, r)
            || (ProcOf(s, p).pc.SssSent? && ProcOf(AdvanceStep(s, p, op), p) == ProcOf(s, p) && Level(AdvanceStep(s, p, op), r) == Level(s, r))
  {
    hide Inv, WorkStep, CellInv, WorkerLink, Stage;
    InvParts(s);
    assert ProcLink(s.world, s.now, p, s.procs[p], s.cells);
    WorkLowers(s.world, s.now, p, r, ProcOf(s, p).pc, s.cells[r], op);
    WorkStays(s.world, s.now, r, ProcOf(s, p).pc, s.cells[r], op);
    OwnerNamed(s, r, p);
    AttemptsBounded(s.world, s.now, s.cells[r]);
  }

  lemma TakeLevel(s: State, a: Action, r: ReqId)
    requires Inv(s) && r < |s.cells| && !Missing(s.cells[r]) && Takes(s, a, r)
    ensures Level(Step(s, a), r) < Level(s, r)
  {
    hide Inv, CellInv;
    InvParts(s);
    AttemptsBounded(s.world, s.now, s.cells[r]);
    assert TicketInv(s, s.cells[r], r);
  }

  /** Nobody adds work to a job, and every step on it takes some away. */
  lemma StepLevel(s: State, a: Action, r: ReqId)
    requires Inv(s) && r < |s.cells| && !Missing(s.cells[r])
    ensures r < |Step(s, a).cells|
    ensures Level(Step(s, a), r) + (if Works(s, a, r) then 1 else 0) <= Level(s, r)
  {
    hide Inv, Stage, AdvanceStep, Takes;
    if WorksOn(s, a, r) {
      assert !Takes(s, a, r) by { NotBoth(s, a, r); }
      WorkLevel(s, a.p, a.op, r);
    }
    else if Takes(s, a, r) { StepGuards(s, a, r); TakeLevel(s, a, r); }
    else { StepLeaves(s, a, r); }
  }

  lemma NotBoth(s: State, a: Action, r: ReqId)
    requires WorksOn(s, a, r)
    ensures !Takes(s, a, r)
  {
  }

  /** The steps of a run that take or work on request r. */
  function WorkIn(acts: seq<Action>, r: ReqId): nat {
    if |acts| == 0 then 0
    else WorkIn(acts[..|acts| - 1], r) + if Works(Run(Initial, acts[..|acts| - 1]), acts[|acts| - 1], r) then 1 else 0
  }

  function Budget(s: State, r: ReqId): nat {
    if r < |s.cells| && !Missing(s.cells[r]) then Level(s, r)
    else if r < |s.cells| && s.cells[r].row.None? then 0
    else WORK_PER_ATTEMPT * MAX_ATTEMPTS   // not queued yet
  }

  lemma StepBudget(s: State, a: Action, r: ReqId)
    requires Inv(s)
    ensures Budget(Step(s, a), r) + (if Works(s, a, r) then 1 else 0) <= Budget(s, r)
  {
    hide Inv, Step, Level, CellInv;
    if r < |s.cells| && !Missing(s.cells[r]) {
      StepLevel(s, a, r);
      StepGuards(s, a, r);
      LostHasNoLevel(Step(s, a), r);
    } else {
      if r < |s.cells| { StepGuards(s, a, r); }
      StepKeeps(s, a);
      FullLevel(Step(s, a), r);
    }
  }

  lemma LostHasNoLevel(s: State, r: ReqId)
    requires r < |s.cells|
    ensures Missing(s.cells[r]) ==> Level(s, r) == 0
  {
  }

  lemma FullLevel(s: State, r: ReqId)
    requires Inv(s)
    ensures r < |s.cells| ==> Level(s, r) <= WORK_PER_ATTEMPT * MAX_ATTEMPTS
  {
  }

  /** The workers' retries end: at most 60 steps in a whole run take or work on one request. */
  lemma {:induction false} WorkEnds(acts: seq<Action>, r: ReqId)
    ensures WorkIn(acts, r) + Budget(Run(Initial, acts), r) <= WORK_PER_ATTEMPT * MAX_ATTEMPTS == 60
  {
    hide Step, Works, Budget, Inv;
    if |acts| > 0 {
      RunLast(Initial, acts);
      var before := acts[..|acts| - 1];
      WorkEnds(before, r);
      Reachable(before);
      StepBudget(Run(Initial, before), acts[|acts| - 1], r);
    } else {
      assert Budget(Initial, r) == 60 by { FreshBudget(r); }
    }
  }

  lemma FreshBudget(r: ReqId)
    ensures Budget(Initial, r) == 60
  {
  }

  // ---------- a drained queue ----------

  /** No poll is at work, and no job can be taken or will become so. */
  ghost predicate Drained(s: State) {
    && (forall p :: !ProcOf(s, p).Worker?)
    && (forall r :: 0 <= r < |s.cells| && !Missing(s.cells[r]) ==> !Reservable(s.cells[r].row.value.queue.value))
  }

  /** A drained job on which no poll crashed is SUCCEEDED or DEAD, and DEAD are exactly those whose three attempts
    * are used up; these requests are FAILED without any success, unless a statement failed after a result. */
  lemma DrainedJobsAreDone(acts: seq<Action>, r: ReqId)
    requires Drained(Run(Initial, acts)) && Count(acts, r, Crash) == 0
    requires r < |Run(Initial, acts).cells| && !Missing(Run(Initial, acts).cells[r])
    ensures
      var q, j := Run(Initial, acts).cells[r].row.value.request, Run(Initial, acts).cells[r].row.value.queue.value;
      && (j.status.SUCCEEDED? || j.status.DEAD?)
      && (j.status.DEAD? <==> q.retryCount == 3)
      && (Count(acts, r, LateFault) == 0 ==>
            && (j.status.DEAD? <==> q.status.FAILED? && q.meta.external.None?)
            && (j.status.DEAD? ==> Count(acts, r, Success) == 0))
  {
    hide CellInv, Run, Marks;
    CountIsTally(acts, r, Success);
    var s := Run(Initial, acts);
    CountIsTally(acts, r, Crash);
    CountIsTally(acts, r, LateFault);
    Reachable(acts);
    InvParts(s);
    assert !Unfinished(s.cells[r]) by { NobodyHolds(s, r); }
    DoneIsDone(s.world, s.now, s.cells[r]);
  }

  lemma NobodyHolds(s: State, r: ReqId)
    requires HeldInv(s) && (forall p :: !ProcOf(s, p).Worker?) && r < |s.cells| && s.cells[r].hist.crashes == 0
    ensures !Unfinished(s.cells[r])
  {
  }

  lemma DoneIsDone(w: World, now: Time, c: Cell)
    requires CellInv(w, now, c) && !Missing(c) && !Unfinished(c) && !Reservable(c.row.value.queue.value)
    ensures
      var q, j := c.row.value.request, c.row.value.queue.value;
      && (j.status.SUCCEEDED? || j.status.DEAD?)
      && (j.status.DEAD? <==> q.retryCount == 3)
      && (c.hist.lateFaults == 0 ==>
            && (j.status.DEAD? <==> q.status.FAILED? && q.meta.external.None?)
            && (j.status.DEAD? ==> c.hist.successes == 0))
  {
  }
}

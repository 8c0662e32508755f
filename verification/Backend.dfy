/** The database and the processes around it as one mutable object. Every method is one statement of some process,
  * preceded by whatever the others do meanwhile, and is proved to be a step of the pipeline. */
module Backend {
  import opened Domain
  import opened Pipeline
  import opened CellInvariant
  import opened RunInvariant
  import opened StepInvariant
  import opened ExecutionTheorems
  import opened Ownership
  import ApprovalTheorems
  import WithdrawTheorems
  import Guarantees

  /** What happens up to and in one statement of a process: the moves of all others before it, and its own outcome. */
  datatype Moment = Moment(others: seq<Action>, op: Op)

  predicate NotBy(acts: seq<Action>, p: Pid) {
    forall i :: 0 <= i < |acts| ==> !ByProcess(acts[i], p)
  }

  /** The statement goes through, and no cleanup runs before it. */
  predicate Calm(m: Moment) { m.op.Ok? && WithdrawTheorems.NoCleanup(m.others) }

  ghost predicate AllCalm(script: nat -> Moment) { forall k: nat :: Calm(script(k)) }

  /** Every row of the one table is in the other. */
  predicate StillThere(cells: seq<Cell>, cells': seq<Cell>) {
    |cells| <= |cells'| && forall r :: 0 <= r < |cells| && cells[r].row.Some? ==> cells'[r].row.Some?
  }

  lemma AllStillThere(acts: seq<Action>, more: seq<Action>)
    requires WithdrawTheorems.NoCleanup(more)
    ensures StillThere(Run(Initial, acts).cells, Run(Initial, acts + more).cells)
  {
    hide Run;
    WithdrawTheorems.RowsStay(acts, more);
  }

  lemma Snoc(acts: seq<Action>, a: Action, r: ReqId)
    ensures Run(Initial, acts + [a]) == Step(Run(Initial, acts), a)
    ensures forall k :: Count(acts + [a], r, k) == Count(acts, r, k) + if Marks(Run(Initial, acts), a, r, k) then 1 else 0
  {
    hide Run, Step;
    RunSnoc(Initial, acts, a);
    assert (acts + [a])[..|acts|] == acts;
  }

  lemma CommitStep(s: State, p: Pid, r: ReqId, pc: WorkerPc, m: Moved)
    requires ProcOf(s, p) == Worker(r, pc) && r < |s.cells| && !Missing(s.cells[r])
    requires WorkStep(s.world, s.now, r, pc, s.cells[r], Ok) == m
    ensures Step(s, Advance(p, Ok)) == s.(cells := s.cells[r := m.cell], procs := s.procs[p := m.proc], world := m.world)
    ensures Marks(s, Advance(p, Ok), r, Execution) <==> pc.Ready? && m.proc.Worker? && m.proc.pc.Calling?
    ensures Marks(s, Advance(p, Ok), r, Success) <==> !pc.Returned? && m.proc.Worker? && m.proc.pc.Returned?
  {
    hide WorkStep;
  }

  lemma ThrowStep(s: State, p: Pid, r: ReqId, pc: WorkerPc, op: Op)
    requires ProcOf(s, p) == Worker(r, pc) && r < |s.cells| && (!op.Ok? || Missing(s.cells[r]))
    ensures
      var c := s.cells[r];
      var c' := if op.Die? || (!Missing(c) && !InTry(pc)) then Abandon(c)
                else if !Missing(c) && AfterReturn(pc) then c.(hist := c.hist.(lateFaults := c.hist.lateFaults + 1))
                else c;
      var proc := if InTry(pc) && !op.Die? then Worker(r, Caught(pc.snap)) else Idle;
      Step(s, Advance(p, op)) == s.(cells := s.cells[r := c'], procs := s.procs[p := proc])
    ensures !Marks(s, Advance(p, op), r, Execution) && !Marks(s, Advance(p, op), r, Success)
  {
  }

  class Store {
    var now: Time
    var wallets: map<WalletId, Wallet>
    var nextWallet: WalletId
    var cells: seq<Cell>
    var tickets: seq<ReqId>
    var resv: seq<nat>
    var procs: map<Pid, Proc>
    var world: World
    ghost var trace: seq<Action>

    function View(): State
      reads this
    {
      State(now, wallets, nextWallet, cells, tickets, resv, procs, world)
    }

    ghost predicate Valid()
      reads this
    {
      View() == Run(Initial, trace)
    }

    constructor ()
      ensures Valid() && trace == [] && View() == Initial
    {
      now, wallets, nextWallet, cells, tickets, resv, procs, world := 0, map[], 0, [], [], [], map[], World([], {}, []);
      trace := [];
    }

    method Become(s: State, ghost a: Action)
      requires Valid() && s == Step(View(), a)
      modifies this
      ensures Valid() && View() == s && trace == old(trace) + [a]
    {
      hide Run, Step;
      Extended(trace, a);
      now, wallets, nextWallet, cells := s.now, s.wallets, s.nextWallet, s.cells;
      tickets, resv, procs, world := s.tickets, s.resv, s.procs, s.world;
      trace := trace + [a];
    }

    /** The other processes and the outside world move; p stays where it is, and nobody executes what p works on. */
    method Others(p: Pid, acts: seq<Action>)
      requires Valid() && NotBy(acts, p)
      modifies this
      ensures Valid() && trace == old(trace) + acts && |old(cells)| <= |cells|
      ensures ProcOf(View(), p) == old(ProcOf(View(), p))
      ensures ProcOf(View(), p).Worker? ==>
                forall k :: Count(trace, ProcOf(View(), p).r, k) == Count(old(trace), ProcOf(View(), p).r, k)
    {
      var i := 0;
      while i < |acts|
        invariant 0 <= i <= |acts| && Valid() && trace == old(trace) + acts[..i] && |old(cells)| <= |cells|
        invariant ProcOf(View(), p) == old(ProcOf(View(), p))
        invariant ProcOf(View(), p).Worker? ==>
                    forall k :: Count(trace, ProcOf(View(), p).r, k) == Count(old(trace), ProcOf(View(), p).r, k)
      {
        OthersLeave(View(), acts[i], p);
        ApprovalTheorems.NewCellAsked(View(), acts[i]);
        ghost var before := trace;
        if ProcOf(View(), p).Worker? { OthersDoNotMark(trace, acts[i], p, ProcOf(View(), p).r); }
        Become(Step(View(), acts[i]), acts[i]);
        assert trace[..|trace| - 1] == before;
        assert acts[..i + 1] == acts[..i] + [acts[i]];
        i := i + 1;
      }
      assert acts[..i] == acts;
    }

    /** p is a poll about to make the given statement on request r. */
    ghost predicate At(p: Pid, r: ReqId, pc: WorkerPc)
      reads this
    {
      Valid() && ProcOf(View(), p) == Worker(r, pc)
    }

    /** Whether the next statement goes through: it does not fail, and the rows it needs exist. */
    predicate GoesThrough(r: ReqId, op: Op)
      reads this
    {
      op.Ok? && r < |cells| && !Missing(cells[r])
    }

    /** The effect of a statement that goes through. */
    method Commit(p: Pid, r: ReqId, ghost pc: WorkerPc, next: Proc, cell: Cell, w: World)
      requires At(p, r, pc) && r < |cells| && !Missing(cells[r])
      requires WorkStep(world, now, r, pc, cells[r], Ok) == Moved(next, cell, w)
      modifies this
      ensures Valid() && trace == old(trace) + [Advance(p, Ok)] && ProcOf(View(), p) == next
      ensures cells == old(cells)[r := cell] && world == w && now == old(now)
      ensures Count(trace, r, Execution) == Count(old(trace), r, Execution) + if pc.Ready? && next.Worker? && next.pc.Calling? then 1 else 0
      ensures Count(trace, r, Success) == Count(old(trace), r, Success) + if !pc.Returned? && next.Worker? && next.pc.Returned? then 1 else 0
    {
      hide Step, Run, WorkStep, Marks;
      CommitStep(View(), p, r, pc, Moved(next, cell, w));
      cells, procs, world := cells[r := cell], procs[p := next], w;
      trace := trace + [Advance(p, Ok)];
      Snoc(old(trace), Advance(p, Ok), r);
    }

    /** A statement that does not go through: the poll continues in its catch block, or is over. */
    method Throw(p: Pid, r: ReqId, pc: WorkerPc, op: Op) returns (caught: bool)
      requires At(p, r, pc) && !GoesThrough(r, op)
      modifies this
      ensures Valid() && trace == old(trace) + [Advance(p, op)]
      ensures r < |cells| == |old(cells)| && cells[r].row == old(cells)[r].row && cells[r].hist.intent == old(cells)[r].hist.intent && world == old(world)
      ensures caught <==> InTry(pc) && !op.Die?
      ensures ProcOf(View(), p) == if caught then Worker(r, Caught(pc.snap)) else Idle
      ensures Count(trace, r, Execution) == Count(old(trace), r, Execution) && Count(trace, r, Success) == Count(old(trace), r, Success)
    {
      hide Step, Run, Marks, Count;
      WorkerInRange(trace, p);
      ThrowStep(View(), p, r, pc, op);
      Snoc(trace, Advance(p, op), r);
      var c := cells[r];
      caught := InTry(pc) && !op.Die?;
      if op.Die? || (!Missing(c) && !InTry(pc)) {
        c := Abandon(c);
      } else if !Missing(c) && AfterReturn(pc) {
        c := c.(hist := c.hist.(lateFaults := c.hist.lateFaults + 1));
      }
      cells, procs := cells[r := c], procs[p := if caught then Worker(r, Caught(pc.snap)) else Idle];
      trace := trace + [Advance(p, op)];
    }

    /** Gives the job that the queue chose to the poll p. */
    method Take(p: Pid, job: Option<ReqId>)
      requires Valid() && ProcOf(View(), p).Idle? && job == Oldest(cells, now)
      modifies this
      ensures Valid() && trace == old(trace) + [Reserve(p)]
      ensures ProcOf(View(), p) == if job.Some? then Worker(job.value, Claimed) else Idle
      ensures now == old(now) && cells == if job.Some? then old(cells)[job.value := ReserveCell(old(cells)[job.value], p)] else old(cells)
      ensures forall r, k :: Count(trace, r, k) == Count(old(trace), r, k)
    {
      hide Run, Step, Count, Marks, Oldest;
      Extended(trace, Reserve(p));
      TakeSteps(trace, p);
      ReserveMarksNothing(trace, p);
      if job.Some? {
        var r := job.value;
        var j := cells[r].row.value.queue.value;
        cells := cells[r := SetJob(cells[r], j.(status := RESERVED, workerId := Some(p)))];
        resv := resv[j.ticket := resv[j.ticket] + 1];
        procs := procs[p := Worker(r, Claimed)];
      }
      trace := trace + [Reserve(p)];
    }

    /** An audit row that a process still has to append to request r, and the answer to its caller after the last one. */
    method Note(p: Pid, r: ReqId, before: Option<AuditEvent>, last: AuditEvent, reply: Option<Answer>, op: Op) returns (ok: bool)
      requires Valid() && ProcOf(View(), p) == Noting(r, before, last, reply)
      modifies this
      ensures Valid() && trace == old(trace) + [Advance(p, op)]
      ensures r < |cells| == |old(cells)| && (ok <==> op.Ok? && old(cells)[r].row.Some?)
      ensures ProcOf(View(), p) == if ok && before.Some? then Noting(r, None, last, reply) else Idle
      ensures ok ==>
                var row, e := old(cells)[r].row.value, if before.Some? then before.value else last;
                cells[r].row == Some(row.(audit := row.audit + multiset{e}))
      ensures ok && before.None? && reply.Some? ==> cells[r].hist.answers == old(cells)[r].hist.answers + [reply.value]
      ensures forall i :: 0 <= i < |cells| && i != r ==> cells[i] == old(cells)[i]
      ensures !ok ==> cells == old(cells)
      ensures ok && (before.Some? || reply.None?) ==> cells[r].hist == old(cells)[r].hist
    {
      NotingInRange(trace, p);
      var c := cells[r];
      ok := op.Ok? && c.row.Some?;
      NoteSteps(View(), p, r, before, last, reply, op);
      hide Step, Run;
      var next := Idle;
      if ok && before.Some? {
        c := AddAudit(c, before.value);
        next := Noting(r, None, last, reply);
      } else if ok {
        c := AddAudit(c, last);
        if reply.Some? { c := c.(hist := c.hist.(answers := c.hist.answers + [reply.value])); }
      }
      cells, procs := cells[r := c], procs[p := next];
      trace := trace + [Advance(p, op)];
      Extended(old(trace), Advance(p, op));
    }
  }

  lemma TakeSteps(acts: seq<Action>, p: Pid)
    requires ProcOf(Run(Initial, acts), p).Idle?
    ensures
      var s := Run(Initial, acts);
      match Oldest(s.cells, s.now)
      case None => Step(s, Reserve(p)) == s
      case Some(r) =>
        && r < |s.cells| && !Missing(s.cells[r]) && Ticket(s.cells[r]) < |s.resv|
        && Step(s, Reserve(p)) == s.(cells := s.cells[r := ReserveCell(s.cells[r], p)], procs := s.procs[p := Worker(r, Claimed)],
                                     resv := s.resv[Ticket(s.cells[r]) := s.resv[Ticket(s.cells[r])] + 1])
  {
    hide Run;
    TicketKnown(acts);
  }

  lemma ReserveMarksNothing(acts: seq<Action>, p: Pid)
    ensures forall r, k :: Count(acts + [Reserve(p)], r, k) == Count(acts, r, k)
  {
    forall r, k ensures Count(acts + [Reserve(p)], r, k) == Count(acts, r, k) { Snoc(acts, Reserve(p), r); }
  }

  lemma Extended(acts: seq<Action>, a: Action)
    ensures Run(Initial, acts + [a]) == Step(Run(Initial, acts), a)
  {
    RunSnoc(Initial, acts, a);
  }

  lemma NoteSteps(s: State, p: Pid, r: ReqId, before: Option<AuditEvent>, last: AuditEvent, reply: Option<Answer>, op: Op)
    requires ProcOf(s, p) == Noting(r, before, last, reply) && r < |s.cells|
    ensures
      var m := NoteStep(s.world, r, before, last, reply, s.cells[r], op);
      Step(s, Advance(p, op)) == s.(cells := s.cells[r := m.cell], procs := s.procs[p := m.proc])
  {
  }

  lemma TicketKnown(acts: seq<Action>)
    ensures forall r :: 0 <= r < |Run(Initial, acts).cells| && !Missing(Run(Initial, acts).cells[r]) ==>
              Ticket(Run(Initial, acts).cells[r]) < |Run(Initial, acts).resv|
  {
    var s := Run(Initial, acts);
    StepInvariant.Reachable(acts);
    StepInvariant.InvParts(s);
    forall r | 0 <= r < |s.cells| && !Missing(s.cells[r]) ensures Ticket(s.cells[r]) < |s.resv| {
      assert TicketInv(s, s.cells[r], r);
    }
  }

  /** Up to the write of the outcome, a poll finds the rows that its next statement needs. */
  lemma WorkFinds(acts: seq<Action>, p: Pid)
    requires ProcOf(Run(Initial, acts), p).Worker? && WithdrawTheorems.BeforeSuccess(ProcOf(Run(Initial, acts), p).pc)
    ensures
      var s := Run(Initial, acts);
      ProcOf(s, p).r < |s.cells| && !Missing(s.cells[ProcOf(s, p).r])
  {
    hide Run, Step;
    WithdrawTheorems.RequestAlwaysFound(acts, p);
  }

  lemma IntentStays(acts: seq<Action>, more: seq<Action>, r: ReqId)
    requires r < |Run(Initial, acts).cells|
    ensures r < |Run(Initial, acts + more).cells|
    ensures Run(Initial, acts + more).cells[r].hist.intent == Run(Initial, acts).cells[r].hist.intent
  {
    hide Run, Inv;
    Reachable(acts);
    Guarantees.RunSplit(Initial, acts, more);
    Guarantees.RunGuards(Run(Initial, acts), more, r);
  }

  lemma NotingInRange(acts: seq<Action>, p: Pid)
    requires ProcOf(Run(Initial, acts), p).Noting?
    ensures ProcOf(Run(Initial, acts), p).r < |Run(Initial, acts).cells|
  {
    var s := Run(Initial, acts);
    Reachable(acts);
    InvParts(s);
    assert ProcLink(s.world, s.now, p, s.procs[p], s.cells);
  }
}

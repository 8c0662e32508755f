/** apps/api/src/wallet/kms.service.ts: many senders, one key. Each sends under a database advisory lock that it tries
  * for once, with the nonce that the node calls pending; senders fail and die anywhere. */
module KmsNonce {
  import opened Domain

  /** A transaction that the node accepted from the key's address, and the call that sent it. */
  datatype Sent = Sent(nonce: nat, to: Address, value: Wei, sender: Pid)

  /** How a call ended: the lock was taken; something failed; the transaction was sent; the process or its database
    * session died; or the unlock statement itself failed, which leaves the lock with the session. */
  datatype End = Busy | Failed | Done(nonce: nat) | Dead | UnlockFailed

  /** The next statement of a call that has the lock. */
  datatype Pc =
    | Locked                        // getAddress
    | Addressed                     // getTransactionCount(from, 'pending')
    | Nonced(n: nat)                // sign, normalise, find the parity
    | Signed(n: nat)                // broadcast
    | Unlocking(sent: Option<nat>)  // the finally block
    | Over(end: End)

  datatype Sender = Sender(to: Address, value: Wei, pc: Pc)

  datatype State = State(lock: Option<Pid>, senders: map<Pid, Sender>, accepted: seq<Sent>, ended: set<Pid>)   // sessions that ended

  /** Rejected: the node does not take the transaction. Lost: it does, but its response does not arrive. */
  datatype Action =
    | TryLock(p: Pid, to: Address, value: Wei, ok: bool)
    | GetAddress(p: Pid, ok: bool)
    | ReadNonce(p: Pid, n: nat, ok: bool)
    | Sign(p: Pid, ok: bool)
    | Broadcast(p: Pid, taken: bool, heard: bool)
    | Unlock(p: Pid, ok: bool)
    | EndSession(p: Pid)

  const Initial: State := State(None, map[], [], {})

  predicate Used(accepted: seq<Sent>, n: nat) { exists i :: 0 <= i < |accepted| && accepted[i].nonce == n }

  /** The node's contract for the 'pending' count: the first nonce that no accepted transaction has. */
  predicate IsPending(accepted: seq<Sent>, n: nat) {
    !Used(accepted, n) && forall m :: 0 <= m < n ==> Used(accepted, m)
  }

  predicate At(s: State, p: Pid, pc: Pc) { p in s.senders && s.senders[p].pc == pc }

  function Goto(s: State, p: Pid, pc: Pc): State
    requires p in s.senders
  {
    s.(senders := s.senders[p := s.senders[p].(pc := pc)])
  }

  function Step(s: State, a: Action): State {
    match a
    case TryLock(p, to, value, ok) =>
      if p in s.senders then s
      else if !ok then s.(senders := s.senders[p := Sender(to, value, Over(End.Failed))])
      else if s.lock.Some? then s.(senders := s.senders[p := Sender(to, value, Over(Busy))])
      else s.(lock := Some(p), senders := s.senders[p := Sender(to, value, Locked)])
    case GetAddress(p, ok) => if At(s, p, Locked) then Goto(s, p, if ok then Addressed else Unlocking(None)) else s
    case ReadNonce(p, n, ok) =>
      if !At(s, p, Addressed) then s
      else if !ok then Goto(s, p, Unlocking(None))
      else if IsPending(s.accepted, n) then Goto(s, p, Nonced(n)) else s
    case Sign(p, ok) =>
      if p in s.senders && s.senders[p].pc.Nonced? then Goto(s, p, if ok then Signed(s.senders[p].pc.n) else Unlocking(None)) else s
    case Broadcast(p, taken, heard) =>
      if p in s.senders && s.senders[p].pc.Signed? then
        var n := s.senders[p].pc.n;
        var s' := if taken then s.(accepted := s.accepted + [Sent(n, s.senders[p].to, s.senders[p].value, p)]) else s;
        Goto(s', p, Unlocking(if taken && heard then Some(n) else None))
      else s
    case Unlock(p, ok) =>
      if p in s.senders && s.senders[p].pc.Unlocking? then
        if !ok then Goto(s, p, Over(UnlockFailed))
        else Goto(s, p, Over(if s.senders[p].pc.sent.Some? then Done(s.senders[p].pc.sent.value) else End.Failed)).(lock := None)
      else s
    case EndSession(p) =>
      if p !in s.senders then s
      else
        var s' := (if s.lock == Some(p) then s.(lock := None) else s).(ended := s.ended + {p});
        if s.senders[p].pc.Over? then s' else Goto(s', p, Over(Dead))
  }

  function Run(acts: seq<Action>): State {
    if |acts| == 0 then Initial else Step(Run(acts[..|acts| - 1]), acts[|acts| - 1])
  }

  // ---------- the invariant ----------

  predicate SenderInv(s: State, p: Pid, x: Sender) {
    && (!x.pc.Over? || (x.pc.end.UnlockFailed? && p !in s.ended) ==> s.lock == Some(p))
    && (!x.pc.Over? ==> p !in s.ended)
    && (x.pc.Nonced? || x.pc.Signed? ==> x.pc.n == |s.accepted|)
    && (x.pc.Unlocking? && x.pc.sent.Some? ==> x.pc.sent.value < |s.accepted| && s.accepted[x.pc.sent.value] == Sent(x.pc.sent.value, x.to, x.value, p))
    && (x.pc.Over? && x.pc.end.Done? ==> x.pc.end.nonce < |s.accepted| && s.accepted[x.pc.end.nonce] == Sent(x.pc.end.nonce, x.to, x.value, p))
    && (x.pc.Over? && x.pc.end.Busy? ==> forall i :: 0 <= i < |s.accepted| ==> s.accepted[i].sender != p)
  }

  predicate Inv(s: State) {
    && s.ended <= s.senders.Keys
    && (forall i :: 0 <= i < |s.accepted| ==> s.accepted[i].nonce == i)
    && (forall p :: p in s.senders ==> SenderInv(s, p, s.senders[p]))
    && (s.lock.Some? ==>
          && s.lock.value in s.senders
          && var pc := s.senders[s.lock.value].pc; !pc.Over? || (pc.end.UnlockFailed? && s.lock.value !in s.ended))
    && (forall i :: 0 <= i < |s.accepted| ==>
          && s.accepted[i].sender in s.senders
          && var x := s.senders[s.accepted[i].sender];
             (x.pc.Unlocking? || x.pc.Over?) && s.accepted[i].to == x.to && s.accepted[i].value == x.value)
    && (forall i, j :: 0 <= i < j < |s.accepted| ==> s.accepted[i].sender != s.accepted[j].sender)
  }

  lemma LengthIsPending(accepted: seq<Sent>)
    requires forall i :: 0 <= i < |accepted| ==> accepted[i].nonce == i
    ensures IsPending(accepted, |accepted|)
  {
    forall m | 0 <= m < |accepted| ensures Used(accepted, m) { assert accepted[m].nonce == m; }
  }

  lemma PendingIsLength(accepted: seq<Sent>, n: nat)
    requires forall i :: 0 <= i < |accepted| ==> accepted[i].nonce == i
    requires IsPending(accepted, n)
    ensures n == |accepted|
  {
    LengthIsPending(accepted);
  }

  lemma StepKeeps(s: State, a: Action)
    requires Inv(s)
    ensures Inv(Step(s, a))
  {
    hide *;
    if a.Broadcast? { BroadcastKeeps(s, a); }
    else if a.TryLock? || a.Unlock? || a.EndSession? { LockKeeps(s, a); }
    else { WorkKeeps(s, a); }
  }

  lemma BroadcastKeeps(s: State, a: Action)
    requires Inv(s) && a.Broadcast?
    ensures Inv(Step(s, a))
  {
  }

  lemma LockKeeps(s: State, a: Action)
    requires Inv(s) && (a.TryLock? || a.Unlock? || a.EndSession?)
    ensures Inv(Step(s, a))
  {
  }

  lemma WorkKeeps(s: State, a: Action)
    requires Inv(s) && (a.GetAddress? || a.ReadNonce? || a.Sign?)
    ensures Inv(Step(s, a))
  {
    if a.ReadNonce? && IsPending(s.accepted, a.n) { PendingIsLength(s.accepted, a.n); }
  }

  lemma {:induction false} Reachable(acts: seq<Action>)
    ensures Inv(Run(acts))
  {
    hide Step, Inv;
    if |acts| > 0 {
      Reachable(acts[..|acts| - 1]);
      StepKeeps(Run(acts[..|acts| - 1]), acts[|acts| - 1]);
    } else {
      assert Inv(Initial) by { InitialInv(); }
    }
  }

  lemma InitialInv()
    ensures Inv(Initial)
  {
  }

  // ---------- what every run guarantees ----------

  /** The transactions accepted from the address carry the nonces 0, 1, 2, ... in this order, each once. */
  lemma NoncesHaveNoGaps(acts: seq<Action>, i: nat)
    requires i < |Run(acts).accepted|
    ensures Run(acts).accepted[i].nonce == i
  {
    Reachable(acts);
  }

  predicate Sending(s: State, p: Pid) { p in s.senders && !s.senders[p].pc.Over? }

  /** At most one call is between its lock and its unlock. */
  lemma OneSender(acts: seq<Action>, p: Pid, q: Pid)
    requires Sending(Run(acts), p) && Sending(Run(acts), q)
    ensures p == q && Run(acts).lock == Some(p)
  {
    Reachable(acts);
  }

  /** The nonce that a call has read is still the pending one when it signs and broadcasts. */
  lemma NonceStaysPending(acts: seq<Action>, p: Pid)
    requires p in Run(acts).senders && (Run(acts).senders[p].pc.Nonced? || Run(acts).senders[p].pc.Signed?)
    ensures IsPending(Run(acts).accepted, Run(acts).senders[p].pc.n)
  {
    Reachable(acts);
    LengthIsPending(Run(acts).accepted);
  }

  /** A call has the lock if and only if it is at work, or its unlock statement failed and its session has not ended. */
  lemma {:induction false} LockHeldIff(acts: seq<Action>, p: Pid)
    ensures Run(acts).lock == Some(p) <==>
              || Sending(Run(acts), p)
              || (At(Run(acts), p, Over(UnlockFailed)) && p !in Run(acts).ended)
  {
    Reachable(acts);
  }

  /** Each call has at most one transaction accepted, with the recipient and amount that it was given; a call that
    * returns has exactly the one with its nonce; a call that finds the lock taken has none. */
  lemma SentAsAsked(acts: seq<Action>, p: Pid)
    requires p in Run(acts).senders
    ensures
      var s := Run(acts);
      var x := s.senders[p];
      && (forall i, j :: 0 <= i < |s.accepted| && 0 <= j < |s.accepted| && s.accepted[i].sender == s.accepted[j].sender == p ==> i == j)
      && (forall i :: 0 <= i < |s.accepted| && s.accepted[i].sender == p ==> s.accepted[i].to == x.to && s.accepted[i].value == x.value)
      && (x.pc.Over? && x.pc.end.Done? ==> x.pc.end.nonce < |s.accepted| && s.accepted[x.pc.end.nonce] == Sent(x.pc.end.nonce, x.to, x.value, p))
      && (x.pc == Over(Busy) ==> forall i :: 0 <= i < |s.accepted| ==> s.accepted[i].sender != p)
  {
    Reachable(acts);
  }

  /** The accepted transactions that some calls have sent, as positions on the chain of nonces. */
  function SentBy(accepted: seq<Sent>, calls: set<Pid>): set<nat> {
    set n: nat | n < |accepted| && accepted[n].sender in calls
  }

  /** Any set of calls has at most as many transactions accepted as it has calls: so the three attempts of a withdrawal
    * send at most three, and one for each that had the lock. */
  lemma {:induction false} AtMostOneEach(acts: seq<Action>, calls: set<Pid>)
    ensures |SentBy(Run(acts).accepted, calls)| <= |calls|
    decreases |calls|
  {
    hide Run;
    var accepted := Run(acts).accepted;
    if calls == {} {
      assert SentBy(accepted, calls) == {};
    } else {
      var p :| p in calls;
      AtMostOneEach(acts, calls - {p});
      var own := SentBy(accepted, {p});
      OwnAtMostOne(acts, p);
      assert SentBy(accepted, calls) == SentBy(accepted, calls - {p}) + own;
      assert |SentBy(accepted, calls)| <= |SentBy(accepted, calls - {p})| + |own|;
    }
  }

  lemma OwnAtMostOne(acts: seq<Action>, p: Pid)
    ensures |SentBy(Run(acts).accepted, {p})| <= 1
  {
    Reachable(acts);
    hide Run;
    var own := SentBy(Run(acts).accepted, {p});
    if own != {} {
      var n :| n in own;
      assert own == {n};
    }
  }

  /** A failed unlock blocks all later calls: until that session ends, nothing more is accepted. */
  lemma {:induction false} StuckUntilSessionEnds(acts: seq<Action>, more: seq<Action>, p: Pid)
    requires At(Run(acts), p, Over(UnlockFailed)) && Run(acts).lock == Some(p)
    requires forall k :: 0 <= k < |more| ==> more[k] != EndSession(p)
    ensures At(Run(acts + more), p, Over(UnlockFailed)) && Run(acts + more).lock == Some(p)
    ensures Run(acts + more).accepted == Run(acts).accepted
  {
    if |more| == 0 {
      assert acts + more == acts;
    } else {
      var m := more[..|more| - 1];
      StuckUntilSessionEnds(acts, m, p);
      Reachable(acts + m);
      assert (acts + more)[..|acts + more| - 1] == acts + m;
      assert !exists q :: Sending(Run(acts + m), q);
      StuckStep(Run(acts + m), more[|more| - 1], p);
    }
  }

  lemma StuckStep(s: State, a: Action, p: Pid)
    requires At(s, p, Over(UnlockFailed)) && s.lock == Some(p) && a != EndSession(p)
    requires forall q :: !Sending(s, q)
    ensures At(Step(s, a), p, Over(UnlockFailed)) && Step(s, a).lock == Some(p) && Step(s, a).accepted == s.accepted
  {
    if a.GetAddress? { assert !Sending(s, a.p); }
    if a.ReadNonce? { assert !Sending(s, a.p); }
    if a.Sign? { assert !Sending(s, a.p); }
    if a.Broadcast? { assert !Sending(s, a.p); }
    if a.Unlock? { assert !Sending(s, a.p); }
  }
}

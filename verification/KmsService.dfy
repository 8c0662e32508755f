/** apps/api/src/wallet/kms.service.ts: one call of sendNativeTransaction under the lock, statement by statement, with
  * anything that other calls do in between. */
module KmsService {
  import opened Domain
  import opened KmsNonce

  /** How one of the call's own statements goes. */
  datatype Luck = Good | Bad | Lost | Death

  /** The others' moves before a statement, and how the statement goes. */
  datatype Turn = Turn(others: seq<Action>, luck: Luck)

  predicate Foreign(a: Action, p: Pid) { a.p != p }

  predicate AllForeign(acts: seq<Action>, p: Pid) {
    forall i :: 0 <= i < |acts| ==> Foreign(acts[i], p)
  }

  lemma OthersLeave(s: State, a: Action, p: Pid)
    requires Foreign(a, p)
    ensures p in Step(s, a).senders <==> p in s.senders
    ensures p in s.senders ==> Step(s, a).senders[p] == s.senders[p]
  {
  }

  lemma Extended(acts: seq<Action>, a: Action)
    ensures Run(acts + [a]) == Step(Run(acts), a)
  {
    assert (acts + [a])[..|acts|] == acts;
  }

  class KmsService {
    var lock: Option<Pid>
    var senders: map<Pid, Sender>
    var accepted: seq<Sent>
    var ended: set<Pid>
    ghost var trace: seq<Action>

    function View(): State
      reads this
    {
      State(lock, senders, accepted, ended)
    }

    ghost predicate Valid()
      reads this
    {
      View() == Run(trace)
    }

    constructor ()
      ensures Valid() && trace == []
    {
      lock, senders, accepted, ended, trace := None, map[], [], {}, [];
    }

    method Become(a: Action)
      requires Valid()
      modifies this
      ensures Valid() && View() == Step(old(View()), a) && trace == old(trace) + [a]
    {
      var s := Step(View(), a);
      lock, senders, accepted, ended := s.lock, s.senders, s.accepted, s.ended;
      Extended(trace, a);
      trace := trace + [a];
    }

    /** Other calls move; p's own state stays. */
    method Others(p: Pid, acts: seq<Action>)
      requires Valid() && AllForeign(acts, p)
      modifies this
      ensures Valid() && trace == old(trace) + acts
      ensures p in senders <==> p in old(senders)
      ensures p in senders ==> senders[p] == old(senders)[p]
    {
      var i := 0;
      while i < |acts|
        invariant 0 <= i <= |acts| && Valid() && trace == old(trace) + acts[..i]
        invariant p in senders <==> p in old(senders)
        invariant p in senders ==> senders[p] == old(senders)[p]
      {
        OthersLeave(View(), acts[i], p);
        Become(acts[i]);
        assert acts[..i + 1] == acts[..i] + [acts[i]];
        i := i + 1;
      }
      assert acts[..i] == acts;
    }

    /** The process or its session dies: the database drops its lock. */
    method Die(p: Pid)
      requires Valid() && Sending(View(), p)
      modifies this
      ensures Valid() && trace == old(trace) + [EndSession(p)] && accepted == old(accepted) && lock.None?
      ensures p in senders && senders[p] == old(senders)[p].(pc := Over(Dead))
    {
      OneSender(trace, p, p);
      Extended(trace, EndSession(p));
      lock, senders, ended := None, senders[p := senders[p].(pc := Over(Dead))], ended + {p};
      trace := trace + [EndSession(p)];
    }

    /** SELECT pg_try_advisory_lock: it does not wait. */
    method TryAdvisoryLock(p: Pid, to: Domain.Address, value: Wei, luck: Luck) returns (acquired: bool)
      requires Valid() && p !in senders
      modifies this
      ensures Valid() && trace == old(trace) + [TryLock(p, to, value, luck.Good?)] && accepted == old(accepted)
      ensures acquired <==> luck.Good? && old(lock).None?
      ensures ended == old(ended)
      ensures p in senders && senders[p] == Sender(to, value, if acquired then Locked else Over(if luck.Good? then Busy else End.Failed))
      ensures lock == if acquired then Some(p) else old(lock)
    {
      Extended(trace, TryLock(p, to, value, luck.Good?));
      acquired := luck.Good? && lock.None?;
      if acquired { lock := Some(p); }
      senders := senders[p := Sender(to, value, if acquired then Locked else Over(if luck.Good? then Busy else End.Failed))];
      trace := trace + [TryLock(p, to, value, luck.Good?)];
    }

    /** SELECT pg_advisory_unlock, in the finally block. */
    method AdvisoryUnlock(p: Pid, luck: Luck) returns (end: End)
      requires Valid() && p in senders && senders[p].pc.Unlocking?
      modifies this
      ensures Valid() && trace == old(trace) + [Unlock(p, luck.Good?)] && accepted == old(accepted)
      ensures end == if !luck.Good? then UnlockFailed else if old(senders)[p].pc.sent.Some? then Done(old(senders)[p].pc.sent.value) else End.Failed
      ensures p in senders && senders[p] == old(senders)[p].(pc := Over(end))
      ensures lock == if luck.Good? then None else Some(p)
    {
      OneSender(trace, p, p);
      Extended(trace, Unlock(p, luck.Good?));
      var sent := senders[p].pc.sent;
      end := if !luck.Good? then UnlockFailed else if sent.Some? then Done(sent.value) else End.Failed;
      if luck.Good? { lock := None; }
      senders := senders[p := senders[p].(pc := Over(end))];
      trace := trace + [Unlock(p, luck.Good?)];
    }

    method GetAddress(p: Pid, luck: Luck) returns (ok: bool)
      requires Valid() && At(View(), p, Locked)
      modifies this
      ensures Valid() && trace == old(trace) + [Action.GetAddress(p, luck.Good?)] && accepted == old(accepted)
      ensures ok <==> luck.Good?
      ensures p in senders && senders[p] == old(senders)[p].(pc := if ok then Addressed else Unlocking(None))
    {
      Extended(trace, Action.GetAddress(p, luck.Good?));
      ok := luck.Good?;
      senders := senders[p := senders[p].(pc := if ok then Addressed else Unlocking(None))];
      trace := trace + [Action.GetAddress(p, luck.Good?)];
    }

    /** getTransactionCount(from, 'pending'): the number of transactions that the node has accepted so far. */
    method GetTransactionCount(p: Pid, luck: Luck) returns (ok: bool, n: nat)
      requires Valid() && At(View(), p, Addressed)
      modifies this
      ensures Valid() && trace == old(trace) + [ReadNonce(p, n, luck.Good?)] && accepted == old(accepted)
      ensures ok <==> luck.Good?
      ensures IsPending(accepted, n)
      ensures p in senders && senders[p] == old(senders)[p].(pc := if ok then Nonced(n) else Unlocking(None))
    {
      Reachable(trace);
      n := |accepted|;
      LengthIsPending(accepted);
      Extended(trace, ReadNonce(p, n, luck.Good?));
      ok := luck.Good?;
      senders := senders[p := senders[p].(pc := if ok then Nonced(n) else Unlocking(None))];
      trace := trace + [ReadNonce(p, n, luck.Good?)];
    }

    method SignDigest(p: Pid, n: nat, luck: Luck) returns (ok: bool)
      requires Valid() && At(View(), p, Nonced(n))
      modifies this
      ensures Valid() && trace == old(trace) + [Action.Sign(p, luck.Good?)] && accepted == old(accepted)
      ensures ok <==> luck.Good?
      ensures p in senders && senders[p] == old(senders)[p].(pc := if ok then Signed(n) else Unlocking(None))
    {
      Extended(trace, Action.Sign(p, luck.Good?));
      ok := luck.Good?;
      senders := senders[p := senders[p].(pc := if ok then Signed(n) else Unlocking(None))];
      trace := trace + [Action.Sign(p, luck.Good?)];
    }

    /** With the nonce read under the lock: still the pending one. */
    method BroadcastTransaction(p: Pid, n: nat, luck: Luck) returns (ok: bool)
      requires Valid() && At(View(), p, Signed(n))
      modifies this
      ensures Valid() && trace == old(trace) + [Broadcast(p, luck.Good? || luck.Lost?, luck.Good?)]
      ensures IsPending(old(accepted), n)
      ensures ok <==> luck.Good?
      ensures accepted == old(accepted) + if luck.Good? || luck.Lost? then [Sent(n, old(senders)[p].to, old(senders)[p].value, p)] else []
      ensures p in senders && senders[p] == old(senders)[p].(pc := Unlocking(if ok then Some(n) else None))
    {
      NonceStaysPending(trace, p);
      Extended(trace, Broadcast(p, luck.Good? || luck.Lost?, luck.Good?));
      ok := luck.Good?;
      if luck.Good? || luck.Lost? { accepted := accepted + [Sent(n, senders[p].to, senders[p].value, p)]; }
      senders := senders[p := senders[p].(pc := Unlocking(if ok then Some(n) else None))];
      trace := trace + [Broadcast(p, luck.Good? || luck.Lost?, luck.Good?)];
    }

    /** What happens before the next statement of a call that is at work: the others move, and it may die. */
    method Arrive(p: Pid, t: Turn) returns (alive: bool)
      requires Valid() && Sending(View(), p) && AllForeign(t.others, p)
      modifies this
      ensures Valid() && old(trace) <= trace && p in senders
      ensures alive <==> !t.luck.Death?
      ensures alive ==> senders[p] == old(senders)[p]
      ensures !alive ==> senders[p] == old(senders)[p].(pc := Over(Dead)) && lock != Some(p)
    {
      hide Run, Step;
      Others(p, t.others);
      alive := !t.luck.Death?;
      if !alive { Die(p); }
    }

    /** The function that runs under the lock. Whether it returns or throws, the finally block is next; it returns a nonce
      * exactly if all its statements go well. */
    method Send(p: Pid, script: nat -> Turn) returns (alive: bool)
      requires Valid() && At(View(), p, Locked) && forall k: nat :: AllForeign(script(k).others, p)
      modifies this
      ensures Valid() && old(trace) <= trace && p in senders
      ensures senders[p].to == old(senders)[p].to && senders[p].value == old(senders)[p].value
      ensures if alive then senders[p].pc.Unlocking? else senders[p].pc == Over(Dead) && lock != Some(p)
      ensures alive && senders[p].pc.sent.Some? <==> AllGood(script, 1, 4)
    {
      hide Run, Step;
      alive := Arrive(p, script(1));
      if !alive { return; }
      var ok := GetAddress(p, script(1).luck);
      if !ok { return; }
      alive := Arrive(p, script(2));
      if !alive { return; }
      var n;
      ok, n := GetTransactionCount(p, script(2).luck);
      if ok { alive := SignAndSend(p, n, script); }
    }

    /** Its second half, with the nonce. */
    method SignAndSend(p: Pid, n: nat, script: nat -> Turn) returns (alive: bool)
      requires Valid() && At(View(), p, Nonced(n)) && forall k: nat :: AllForeign(script(k).others, p)
      modifies this
      ensures Valid() && old(trace) <= trace && p in senders
      ensures senders[p].to == old(senders)[p].to && senders[p].value == old(senders)[p].value
      ensures if alive then senders[p].pc.Unlocking? else senders[p].pc == Over(Dead) && lock != Some(p)
      ensures alive && senders[p].pc.sent.Some? <==> AllGood(script, 3, 4)
    {
      hide Run, Step;
      alive := Arrive(p, script(3));
      if !alive { return; }
      var ok := SignDigest(p, n, script(3).luck);
      if !ok { return; }
      alive := Arrive(p, script(4));
      if !alive { return; }
      ok := BroadcastTransaction(p, n, script(4).luck);
    }

    /** One call. When it returns a nonce, that nonce carries its recipient and amount and no other call's; it never has
      * two transactions accepted; and it is over with the lock given back, unless the unlock statement failed. It returns
      * a nonce exactly if it finds the lock free and nothing fails, and it is busy exactly if it finds the lock taken. */
    method SendNativeTransaction(p: Pid, to: Domain.Address, value: Wei, script: nat -> Turn) returns (end: End)
      requires Valid() && p !in senders && forall k: nat :: AllForeign(script(k).others, p)
      modifies this
      ensures Valid() && old(trace) <= trace
      ensures p in senders && senders[p] == Sender(to, value, Over(end))
      ensures end.Done? <==> Run(old(trace) + script(0).others).lock.None? && AllGood(script, 0, 5)
      ensures end.Busy? <==> Run(old(trace) + script(0).others).lock.Some? && script(0).luck.Good?
      ensures end.Done? ==> end.nonce < |accepted| && accepted[end.nonce] == Sent(end.nonce, to, value, p)
      ensures end.Busy? ==> forall i :: 0 <= i < |accepted| ==> accepted[i].sender != p
      ensures forall i, j :: 0 <= i < |accepted| && 0 <= j < |accepted| && accepted[i].sender == accepted[j].sender == p ==> i == j
      ensures lock == Some(p) <==> end.UnlockFailed?
    {
      hide Run, Step;
      Others(p, script(0).others);
      var acquired := TryAdvisoryLock(p, to, value, script(0).luck);
      if acquired {
        end := Hold(p, script);
      } else {
        end := senders[p].pc.end;
      }
      SentAsAsked(trace, p);
      LockHeldIff(trace, p);
    }

    /** From the lock to the unlock. */
    method Hold(p: Pid, script: nat -> Turn) returns (end: End)
      requires Valid() && At(View(), p, Locked) && forall k: nat :: AllForeign(script(k).others, p)
      modifies this
      ensures Valid() && old(trace) <= trace && p in senders
      ensures senders[p] == old(senders)[p].(pc := Over(end)) && !end.Busy?
      ensures end.UnlockFailed? ==> lock == Some(p)
      ensures end.Done? <==> AllGood(script, 1, 5)
    {
      hide Run, Step;
      end := Dead;
      var alive := Send(p, script);
      if !alive { return; }
      alive := Arrive(p, script(5));
      if !alive { return; }
      end := AdvisoryUnlock(p, script(5).luck);
    }
  }

  /** None of these statements fails, loses its response, or dies. */
  predicate AllGood(script: nat -> Turn, first: nat, last: nat) {
    forall k :: first <= k <= last ==> script(k).luck.Good?
  }
}

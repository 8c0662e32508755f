/** Calls of withdraw with one idempotency key, over whole runs: every call whose statements go through is answered,
  * and all of them are answered with the same request. */
module IdempotencyTheorems {
  import opened Domain
  import opened Pipeline
  import opened CellInvariant
  import opened RunInvariant
  import opened StepInvariant
  import opened Guarantees
  import opened ExecutionTheorems
  import opened ApprovalTheorems
  import opened Ownership
  import opened WithdrawTheorems

  /** A permitted call with a key, by an idle process; for SSS with a transaction that matches the order. */
  predicate Permitted(s: State, p: Pid, i: Intent) {
    && ProcOf(s, p).Idle? && i.key.Some? && i.key.value != ""
    && i.walletId in s.wallets && i.wallet == s.wallets[i.walletId] && Authorised(i)
    && (i.wallet.walletType.SSS? ==>
          && i.signedTx.Some?
          && var tx := i.signedTx.value;
             tx.from == i.wallet.address && tx.to == i.to && tx.value == i.amount && tx.chainId == 11155111 && tx.nonce == i.rpcNonce)
  }

  /** A step of p that answers a call with request r, which has the call's key. */
  predicate Serves(s: State, a: Action, p: Pid, r: ReqId, i: Intent) {
    && a == Advance(p, Ok) && i.key.Some? && r < |s.cells| && r < |Step(s, a).cells|
    && Step(s, a).cells[r].hist.answers == s.cells[r].hist.answers + [Answer(i.key, i.walletId)]
    && HasKey(Step(s, a).cells[r], i.key.value)
  }

  ghost predicate AnyServed(s: State, a: Action, p: Pid, i: Intent) { exists r: ReqId :: Serves(s, a, p, r, i) }

  predicate SomeHasKey(s: State, key: string) { exists r :: 0 <= r < |s.cells| && HasKey(s.cells[r], key) }

  /** A call between its checks and its answer. */
  predicate OnTheWay(s: State, p: Pid, i: Intent) {
    && Keyed(i) && i.walletId in s.wallets && (i.wallet.walletType.SSS? ==> SssAccepted(i))
    && match ProcOf(s, p)
       case Looking(i1) => i1 == i
       case Inserting(i1) => i1 == i
       case Conflicted(i1) => i1 == i && SomeHasKey(s, i.key.value)
       case Noting(r, _, _, reply) => r < |s.cells| && HasKey(s.cells[r], i.key.value) && reply == Some(Answer(i.key, i.walletId))
       case _ => false
  }

  /** The statements that a call still has before it, at most. */
  function Left(proc: Proc): nat {
    match proc
    case Looking(_) => 4
    case Inserting(_) => 3
    case Noting(_, before, _, _) => if before.Some? then 2 else 1
    case Conflicted(_) => 1
    case _ => 0
  }

  const STATEMENTS: nat := 4

  // ---------- one step ----------

  lemma OwnStep(s: State, p: Pid, i: Intent)
    requires OnTheWay(s, p, i)
    ensures
      var a := Advance(p, Ok);
      AnyServed(s, a, p, i) || (OnTheWay(Step(s, a), p, i) && Left(ProcOf(Step(s, a), p)) < Left(ProcOf(s, p)))
  {
    hide WorkStep, AnyServed, SssAccepted;
    match ProcOf(s, p)
    case Looking(_) => LookingStep(s, p, i);
    case Inserting(_) => InsertingStep(s, p, i);
    case Conflicted(_) => ConflictedStep(s, p, i);
    case Noting(_, _, _, _) => NotingStep(s, p, i);
    case _ =>
  }

  lemma Replied(s: State, p: Pid, r: ReqId, i: Intent)
    requires r < |s.cells| && Keyed(i) && HasKey(s.cells[r], i.key.value) && Step(s, Advance(p, Ok)) == Reply(s, p, r, i)
    ensures AnyServed(s, Advance(p, Ok), p, i)
  {
    hide Step;
    assert Serves(s, Advance(p, Ok), p, r, i);
  }

  lemma LookingStep(s: State, p: Pid, i: Intent)
    requires OnTheWay(s, p, i) && ProcOf(s, p) == Looking(i)
    ensures AnyServed(s, Advance(p, Ok), p, i) || (OnTheWay(Step(s, Advance(p, Ok)), p, i) && ProcOf(Step(s, Advance(p, Ok)), p) == Inserting(i))
  {
    hide SssAccepted, AnyServed;
    var found := FindKey(s.cells, i.key.value, Some(i.walletId));
    if found.Some? { Replied(s, p, found.value, i); }
  }

  lemma InsertingStep(s: State, p: Pid, i: Intent)
    requires OnTheWay(s, p, i) && ProcOf(s, p) == Inserting(i)
    ensures OnTheWay(Step(s, Advance(p, Ok)), p, i) && Left(ProcOf(Step(s, Advance(p, Ok)), p)) < Left(ProcOf(s, p))
  {
    hide SssAccepted;
  }

  lemma ConflictedStep(s: State, p: Pid, i: Intent)
    requires OnTheWay(s, p, i) && ProcOf(s, p) == Conflicted(i)
    ensures AnyServed(s, Advance(p, Ok), p, i)
  {
    hide SssAccepted, AnyServed;
    Replied(s, p, FindKey(s.cells, i.key.value, None).value, i);
  }

  lemma NotingStep(s: State, p: Pid, i: Intent)
    requires OnTheWay(s, p, i) && ProcOf(s, p).Noting?
    ensures
      var a := Advance(p, Ok);
      AnyServed(s, a, p, i) || (OnTheWay(Step(s, a), p, i) && Left(ProcOf(Step(s, a), p)) < Left(ProcOf(s, p)))
  {
    hide SssAccepted;
    if ProcOf(s, p).before.None? { assert Serves(s, Advance(p, Ok), p, ProcOf(s, p).r, i); }
  }

  lemma OtherStep(s: State, a: Action, p: Pid, i: Intent)
    requires Inv(s) && OnTheWay(s, p, i) && !a.Cleanup? && !ByProcess(a, p)
    ensures OnTheWay(Step(s, a), p, i) && ProcOf(Step(s, a), p) == ProcOf(s, p)
  {
    hide Inv, Step, SssAccepted;
    OthersLeave(s, a, p);
    WalletStays(s, a, i.walletId);
    match ProcOf(s, p)
    case Conflicted(_) =>
      var r :| 0 <= r < |s.cells| && HasKey(s.cells[r], i.key.value);
      RowStays(s, a, r);
      assert HasKey(Step(s, a).cells[r], i.key.value);
    case Noting(r, _, _, _) => RowStays(s, a, r);
    case _ =>
  }

  // ---------- a call in a run ----------

  /** The j-th action of a run is a permitted call. */
  predicate Call(all: seq<Action>, j: nat, p: Pid, i: Intent) {
    j < |all| && all[j] == Withdraw(p, i) && Permitted(Run(Initial, all[..j]), p, i)
  }

  predicate ServedAt(all: seq<Action>, k: nat, p: Pid, r: ReqId, i: Intent) {
    k < |all| && Serves(Run(Initial, all[..k]), all[k], p, r, i)
  }

  ghost predicate Served(all: seq<Action>, p: Pid, i: Intent) { exists k: nat, r: ReqId :: ServedAt(all, k, p, r, i) }

  /** After the call, no cleanup, and every statement of p goes through. */
  predicate Undisturbed(more: seq<Action>, p: Pid) {
    forall k :: 0 <= k < |more| ==> !more[k].Cleanup? && (ByProcess(more[k], p) ==> more[k] == Advance(p, Ok))
  }

  function Turns(more: seq<Action>, p: Pid): nat {
    if |more| == 0 then 0 else Turns(more[..|more| - 1], p) + if ByProcess(more[|more| - 1], p) then 1 else 0
  }

  lemma CallStarts(acts: seq<Action>, p: Pid, i: Intent)
    requires Permitted(Run(Initial, acts), p, i)
    ensures OnTheWay(Run(Initial, acts + [Withdraw(p, i)]), p, i) && Left(ProcOf(Run(Initial, acts + [Withdraw(p, i)]), p)) == STATEMENTS
  {
    hide Run;
    RunSnoc(Initial, acts, Withdraw(p, i));
  }

  lemma ServedLater(all: seq<Action>, a: Action, p: Pid, i: Intent)
    requires Served(all, p, i)
    ensures Served(all + [a], p, i)
  {
    hide Serves;
    var k: nat, r: ReqId :| ServedAt(all, k, p, r, i);
    assert (all + [a])[..k] == all[..k];
    assert ServedAt(all + [a], k, p, r, i);
  }

  lemma ServedNow(all: seq<Action>, a: Action, p: Pid, i: Intent)
    requires AnyServed(Run(Initial, all), a, p, i)
    ensures Served(all + [a], p, i)
  {
    hide Serves;
    var r: ReqId :| Serves(Run(Initial, all), a, p, r, i);
    assert (all + [a])[..|all|] == all;
    assert ServedAt(all + [a], |all|, p, r, i);
  }

  lemma {:induction false} ServedOrOnTheWay(acts: seq<Action>, more: seq<Action>, p: Pid, i: Intent)
    requires OnTheWay(Run(Initial, acts), p, i) && Undisturbed(more, p)
    ensures
      || Served(acts + more, p, i)
      || (OnTheWay(Run(Initial, acts + more), p, i)
          && Left(ProcOf(Run(Initial, acts + more), p)) + Turns(more, p) <= Left(ProcOf(Run(Initial, acts), p)))
  {
    hide Run, Step, Inv, OnTheWay, Served, AnyServed, Left;
    if |more| == 0 {
      assert acts + more == acts;
    } else {
      var m, a := more[..|more| - 1], more[|more| - 1];
      ServedOrOnTheWay(acts, m, p, i);
      var all := acts + m;
      assert acts + more == all + [a];
      if Served(all, p, i) { ServedLater(all, a, p, i); }
      else {
        Reachable(all);
        RunSnoc(Initial, all, a);
        if ByProcess(a, p) {
          OwnStep(Run(Initial, all), p, i);
          if AnyServed(Run(Initial, all), a, p, i) { ServedNow(all, a, p, i); }
        } else {
          OtherStep(Run(Initial, all), a, p, i);
        }
      }
    }
  }

  lemma SomethingLeft(s: State, p: Pid, i: Intent)
    requires OnTheWay(s, p, i)
    ensures Left(ProcOf(s, p)) > 0
  {
  }

  /** A permitted call whose statements go through is answered by its fourth statement at the latest, with a request
    * that has its key, whatever races it. */
  lemma CallIsAnswered(acts: seq<Action>, more: seq<Action>, p: Pid, i: Intent)
    requires Permitted(Run(Initial, acts), p, i) && Undisturbed(more, p) && Turns(more, p) >= STATEMENTS
    ensures Served(acts + [Withdraw(p, i)] + more, p, i)
  {
    hide Run, OnTheWay, Served, Left;
    CallStarts(acts, p, i);
    ServedOrOnTheWay(acts + [Withdraw(p, i)], more, p, i);
    if !Served(acts + [Withdraw(p, i)] + more, p, i) { SomethingLeft(Run(Initial, acts + [Withdraw(p, i)] + more), p, i); }
  }

  // ---------- all calls with one key ----------

  lemma ServedHasKey(all: seq<Action>, k: nat, p: Pid, r: ReqId, i: Intent)
    requires NoCleanup(all) && ServedAt(all, k, p, r, i)
    ensures r < |Run(Initial, all).cells| && HasKey(Run(Initial, all).cells[r], i.key.value)
  {
    hide Run, Step;
    RunSnoc(Initial, all[..k], all[k]);
    assert all[..k] + [all[k]] + all[k + 1..] == all;
    RowsStay(all[..k] + [all[k]], all[k + 1..]);
  }

  /** A call of the run whose statements all go through. */
  predicate GoodCall(all: seq<Action>, j: nat, p: Pid, i: Intent) {
    Call(all, j, p, i) && Undisturbed(all[j + 1..], p) && Turns(all[j + 1..], p) >= STATEMENTS
  }

  lemma GoodCallServed(all: seq<Action>, j: nat, p: Pid, i: Intent)
    requires GoodCall(all, j, p, i)
    ensures Served(all, p, i)
  {
    hide Run, Served, Permitted;
    assert all[..j] + [Withdraw(p, i)] + all[j + 1..] == all;
    CallIsAnswered(all[..j], all[j + 1..], p, i);
  }

  /** A key that is used on one wallet only belongs to a request of that wallet. */
  lemma KeyOnOneWallet(all: seq<Action>, r: ReqId, key: string, walletId: WalletId)
    requires r < |Run(Initial, all).cells| && HasKey(Run(Initial, all).cells[r], key)
    requires forall k :: 0 <= k < |all| && all[k].Withdraw? && all[k].intent.key == Some(key) ==> all[k].intent.walletId == walletId
    ensures Run(Initial, all).cells[r].row.value.request.walletId == walletId
  {
    hide Run;
    CreatedByCheckedCall(all, r);
    var i := Run(Initial, all).cells[r].hist.intent;
    var k: nat :| AskedAt(all, k, i);
    AskedIs(all, k, i);
  }

  /** In a run without cleanups, all permitted calls with one key whose statements go through are answered, and all with
    * the one request that has the key. */
  lemma AllCallsAnsweredAlike(all: seq<Action>, key: string, j0: nat, p0: Pid, i0: Intent) returns (r: ReqId)
    requires NoCleanup(all) && GoodCall(all, j0, p0, i0) && i0.key == Some(key)
    ensures r < |Run(Initial, all).cells| && HasKey(Run(Initial, all).cells[r], key)
    ensures forall r' :: 0 <= r' < |Run(Initial, all).cells| && HasKey(Run(Initial, all).cells[r'], key) ==> r' == r
    ensures forall j, p, i :: GoodCall(all, j, p, i) && i.key == Some(key) ==> exists k: nat :: ServedAt(all, k, p, r, i)
    ensures (forall k :: 0 <= k < |all| && all[k].Withdraw? && all[k].intent.key == Some(key) ==> all[k].intent.walletId == i0.walletId)
            ==> Run(Initial, all).cells[r].row.value.request.walletId == i0.walletId
  {
    hide Run, ServedAt, GoodCall;
    GoodCallServed(all, j0, p0, i0);
    var k0: nat, r0: ReqId :| ServedAt(all, k0, p0, r0, i0);
    r := r0;
    ServedHasKey(all, k0, p0, r, i0);
    if forall k :: 0 <= k < |all| && all[k].Withdraw? && all[k].intent.key == Some(key) ==> all[k].intent.walletId == i0.walletId {
      KeyOnOneWallet(all, r, key, i0.walletId);
    }
    forall r' | 0 <= r' < |Run(Initial, all).cells| && HasKey(Run(Initial, all).cells[r'], key) ensures r' == r {
      OneRequestPerKey(all, r', r, key);
    }
    forall j, p, i | GoodCall(all, j, p, i) && i.key == Some(key) ensures exists k: nat :: ServedAt(all, k, p, r, i) {
      GoodCallServed(all, j, p, i);
      var k: nat, r1: ReqId :| ServedAt(all, k, p, r1, i);
      ServedHasKey(all, k, p, r1, i);
      OneRequestPerKey(all, r1, r, key);
      assert ServedAt(all, k, p, r, i);
    }
  }
}

/** contracts/contracts/PolicyVault.sol under re-entrant calls: whoever is paid may call the vault again before it
  * returns, to any depth, and any call on the way may revert. */
module VaultCalls {
  import opened Domain
  import PolicyGuardV1

  const SELF: Address := 1   // the vault's own address

  datatype Event =
    | Deposited(from: Address, amount: Wei)
    | Withdrawn(to: Address, amount: Wei)
    | PolicyGuardChanged(previousGuard: Address, newGuard: Address)
    | OperatorChanged(previousOperator: Address, newOperator: Address)
    | OwnerChanged(previousOwner: Address, newOwner: Address)

  datatype Vault = Vault(owner: Address, operator: Address, guard: Address, balance: Wei, log: seq<Event>)

  /** A call into the vault with everything that happens below it. For a withdrawal: the calls into the vault that the
    * recipient makes, in order, and whether it accepts the payment in the end. A Group is another contract on the way
    * that makes some calls and may revert them all. */
  datatype VaultCall =
    | Receive(from: Address, value: Wei)
    | Withdraw(sender: Address, to: Address, amount: Wei, inner: seq<VaultCall>, accepts: bool)
    | SetPolicyGuard(sender: Address, newGuard: Address)
    | SetOperator(sender: Address, newOperator: Address)
    | SetOwner(sender: Address, newOwner: Address)
    | Group(inner: seq<VaultCall>, accepts: bool)

  /** What the guard contract at an address answers; `check` is a view function, so it may look at the vault but not
    * call back. A guard that reverts counts as a refusal. */
  type Guards = (Address, Vault, Address, Wei) -> bool

  /** A question that the vault asked its guard, and the vault as it was then. */
  datatype Asked = Asked(at: Vault, to: Address, amount: Wei)

  /** Whether a call returns, the vault after it, and the checks behind the payments that it made, in the order of the
    * payments. A revert takes back the payments below it, and their checks. */
  datatype Outcome = Outcome(ok: bool, v: Vault, checks: seq<Asked>)

  function Exec(says: Guards, v: Vault, c: VaultCall): Outcome
    decreases c, 0
  {
    match c
    case Receive(from, value) => Outcome(true, v.(balance := v.balance + value, log := v.log + [Deposited(from, value)]), [])
    case Withdraw(sender, to, amount, inner, accepts) =>
      if sender != v.owner && sender != v.operator then Outcome(false, v, [])
      else if !says(v.guard, v, to, amount) then Outcome(false, v, [])
      else if v.balance < amount then Outcome(false, v, [])
      else if to == SELF then Outcome(true, v.(log := v.log + [Deposited(SELF, amount), Withdrawn(to, amount)]), [Asked(v, to, amount)])
      else
        var after := RunAll(says, v.(balance := v.balance - amount), inner);
        if accepts
        then Outcome(true, after.v.(log := after.v.log + [Withdrawn(to, amount)]), after.checks + [Asked(v, to, amount)])
        else Outcome(false, v, [])
    case SetPolicyGuard(sender, newGuard) =>
      if sender == v.owner && newGuard != 0
      then Outcome(true, v.(guard := newGuard, log := v.log + [PolicyGuardChanged(v.guard, newGuard)]), [])
      else Outcome(false, v, [])
    case SetOperator(sender, newOperator) =>
      if sender == v.owner && newOperator != 0
      then Outcome(true, v.(operator := newOperator, log := v.log + [OperatorChanged(v.operator, newOperator)]), [])
      else Outcome(false, v, [])
    case SetOwner(sender, newOwner) =>
      if sender == v.owner && newOwner != 0
      then Outcome(true, v.(owner := newOwner, log := v.log + [OwnerChanged(v.owner, newOwner)]), [])
      else Outcome(false, v, [])
    case Group(inner, accepts) =>
      if accepts then RunAll(says, v, inner) else Outcome(false, v, [])
  }

  /** Calls one after the other; a call that reverts does not stop the next. */
  function RunAll(says: Guards, v: Vault, calls: seq<VaultCall>): Outcome
    decreases calls, 0
  {
    if |calls| == 0 then Outcome(true, v, [])
    else
      var first := Exec(says, v, calls[0]);
      var rest := RunAll(says, first.v, calls[1..]);
      Outcome(true, rest.v, first.checks + rest.checks)
  }

  function ExecAll(says: Guards, v: Vault, calls: seq<VaultCall>): Vault { RunAll(says, v, calls).v }

  // ---------- conservation ----------

  function SumIn(log: seq<Event>): nat {
    if |log| == 0 then 0 else SumIn(log[..|log| - 1]) + if log[|log| - 1].Deposited? then log[|log| - 1].amount else 0
  }

  function SumOut(log: seq<Event>): nat {
    if |log| == 0 then 0 else SumOut(log[..|log| - 1]) + if log[|log| - 1].Withdrawn? then log[|log| - 1].amount else 0
  }

  /** What the balance exceeds the logged movements by. */
  function Excess(v: Vault): int { v.balance - SumIn(v.log) + SumOut(v.log) }

  lemma Logged(log: seq<Event>, e: Event)
    ensures SumIn(log + [e]) == SumIn(log) + if e.Deposited? then e.amount else 0
    ensures SumOut(log + [e]) == SumOut(log) + if e.Withdrawn? then e.amount else 0
  {
    assert (log + [e])[..|log|] == log;
  }

  lemma PaymentConserves(v: Vault, to: Address, amount: nat)
    ensures Excess(v.(log := v.log + [Deposited(SELF, amount), Withdrawn(to, amount)])) == Excess(v)
  {
    var deposited := v.log + [Deposited(SELF, amount)];
    Logged(v.log, Deposited(SELF, amount));
    Logged(deposited, Withdrawn(to, amount));
    assert v.log + [Deposited(SELF, amount), Withdrawn(to, amount)] == deposited + [Withdrawn(to, amount)];
  }

  /** However calls nest, re-enter and revert: a call changes the balance by what it logs. */
  lemma {:induction false} Conserves(says: Guards, v: Vault, c: VaultCall)
    ensures Excess(Exec(says, v, c).v) == Excess(v)
    decreases c, 0
  {
    match c
    case Receive(from, value) => Logged(v.log, Deposited(from, value));
    case Withdraw(sender, to, amount, inner, accepts) =>
      if Exec(says, v, c).ok {
        PaymentConserves(v, to, amount);
        if to != SELF {
          var paid := v.(balance := v.balance - amount);
          AllConserve(says, paid, inner);
          Logged(ExecAll(says, paid, inner).log, Withdrawn(to, amount));
        }
      }
    case SetPolicyGuard(_, newGuard) => Logged(v.log, PolicyGuardChanged(v.guard, newGuard));
    case SetOperator(_, newOperator) => Logged(v.log, OperatorChanged(v.operator, newOperator));
    case SetOwner(_, newOwner) => Logged(v.log, OwnerChanged(v.owner, newOwner));
    case Group(inner, accepts) => AllConserve(says, v, inner);
  }

  lemma {:induction false} AllConserve(says: Guards, v: Vault, calls: seq<VaultCall>)
    ensures Excess(ExecAll(says, v, calls)) == Excess(v)
    decreases calls, 0
  {
    if |calls| > 0 {
      Conserves(says, v, calls[0]);
      AllConserve(says, Exec(says, v, calls[0]).v, calls[1..]);
    }
  }

  function Deployed(owner: Address, operator: Address, guard: Address): Vault { Vault(owner, operator, guard, 0, []) }

  /** After any sequence of outermost calls on a vault deployed without ether, its balance is the sum of its Deposited
    * events minus the sum of its Withdrawn events. */
  lemma BalanceIsLogged(says: Guards, owner: Address, operator: Address, guard: Address, calls: seq<VaultCall>)
    ensures
      var v := ExecAll(says, Deployed(owner, operator, guard), calls);
      v.balance == SumIn(v.log) - SumOut(v.log)
  {
    AllConserve(says, Deployed(owner, operator, guard), calls);
  }

  // ---------- the guard ----------

  /** The guard in force after a log. */
  function GuardAt(first: Address, log: seq<Event>): Address {
    if |log| == 0 then first
    else if log[|log| - 1].PolicyGuardChanged? then log[|log| - 1].newGuard
    else GuardAt(first, log[..|log| - 1])
  }

  /** The vault is in state `at` at some moment of a call, or of a sequence of calls. */
  ghost predicate Occurs(says: Guards, v: Vault, c: VaultCall, at: Vault)
    decreases c, 0
  {
    || at == v
    || (c.Withdraw? && (c.sender == v.owner || c.sender == v.operator) && says(v.guard, v, c.to, c.amount) && v.balance >= c.amount && c.to != SELF
        && OccursInAll(says, v.(balance := v.balance - c.amount), c.inner, at))
    || (c.Group? && OccursInAll(says, v, c.inner, at))
  }

  ghost predicate OccursInAll(says: Guards, v: Vault, calls: seq<VaultCall>, at: Vault)
    decreases calls, 0
  {
    || at == v
    || (|calls| > 0 && (Occurs(says, v, calls[0], at) || OccursInAll(says, Exec(says, v, calls[0]).v, calls[1..], at)))
  }

  /** Where the payments stand in a log. */
  function PaidAt(log: seq<Event>): seq<nat> {
    if |log| == 0 then []
    else PaidAt(log[..|log| - 1]) + if log[|log| - 1].Withdrawn? then [|log| - 1] else []
  }

  lemma PaidMore(log: seq<Event>, e: Event)
    ensures PaidAt(log + [e]) == PaidAt(log) + if e.Withdrawn? then [|log|] else []
  {
    assert (log + [e])[..|log|] == log;
  }

  /** A check made by the guard then in force, which accepted, at or before position n of the log. */
  predicate Sound(says: Guards, first: Address, log: seq<Event>, a: Asked, n: nat) {
    && a.at.log <= log && |a.at.log| <= n
    && a.at.guard == GuardAt(first, a.at.log) && says(a.at.guard, a.at, a.to, a.amount)
  }

  /** Each payment from position `from` of the log on has its own check: the k-th payment the k-th check. */
  ghost predicate Matched(says: Guards, first: Address, before: seq<Event>, log: seq<Event>, checks: seq<Asked>) {
    && before <= log
    && |PaidAt(log)| == |PaidAt(before)| + |checks|
    && PaidAt(before) <= PaidAt(log)
    && forall k :: 0 <= k < |checks| ==> Backs(says, first, log, checks[k], PaidAt(log)[|PaidAt(before)| + k])
  }

  predicate Backs(says: Guards, first: Address, log: seq<Event>, a: Asked, n: nat) {
    && n < |log| && log[n] == Withdrawn(a.to, a.amount) && Sound(says, first, log, a, n)
  }

  predicate GuardKnown(first: Address, v: Vault) { v.guard == GuardAt(first, v.log) }

  lemma GuardKnownNext(first: Address, v: Vault, v': Vault, e: Event)
    requires GuardKnown(first, v) && v'.log == v.log + [e]
    requires v'.guard == if e.PolicyGuardChanged? then e.newGuard else v.guard
    ensures GuardKnown(first, v')
  {
    assert v'.log[..|v.log|] == v.log;
  }

  lemma BacksLonger(says: Guards, first: Address, log: seq<Event>, more: seq<Event>, a: Asked, n: nat)
    requires Backs(says, first, log, a, n) && log <= more
    ensures Backs(says, first, more, a, n)
  {
  }

  lemma MatchedNothing(says: Guards, first: Address, log: seq<Event>)
    ensures Matched(says, first, log, log, [])
  {
  }

  lemma MatchedMore(says: Guards, first: Address, before: seq<Event>, log: seq<Event>, checks: seq<Asked>, e: Event)
    requires Matched(says, first, before, log, checks) && !e.Withdrawn?
    ensures Matched(says, first, before, log + [e], checks)
  {
    hide Backs, PaidAt;
    PaidMore(log, e);
    forall k | 0 <= k < |checks| ensures Backs(says, first, log + [e], checks[k], PaidAt(log + [e])[|PaidAt(before)| + k]) {
      BacksLonger(says, first, log, log + [e], checks[k], PaidAt(log)[|PaidAt(before)| + k]);
    }
  }

  lemma MatchedPayment(says: Guards, first: Address, before: seq<Event>, log: seq<Event>, checks: seq<Asked>, a: Asked)
    requires Matched(says, first, before, log, checks) && Sound(says, first, log, a, |log|)
    ensures Matched(says, first, before, log + [Withdrawn(a.to, a.amount)], checks + [a])
  {
    hide PaidAt;
    var e := Withdrawn(a.to, a.amount);
    PaidMore(log, e);
    forall k | 0 <= k < |checks + [a]| ensures Backs(says, first, log + [e], (checks + [a])[k], PaidAt(log + [e])[|PaidAt(before)| + k]) {
      if k < |checks| { BacksLonger(says, first, log, log + [e], checks[k], PaidAt(log)[|PaidAt(before)| + k]); }
    }
  }

  lemma MatchedThen(says: Guards, first: Address, l0: seq<Event>, l1: seq<Event>, l2: seq<Event>, cs: seq<Asked>, ds: seq<Asked>)
    requires Matched(says, first, l0, l1, cs) && Matched(says, first, l1, l2, ds)
    ensures Matched(says, first, l0, l2, cs + ds)
  {
    hide Backs, PaidAt;
    forall k | 0 <= k < |cs + ds| ensures Backs(says, first, l2, (cs + ds)[k], PaidAt(l2)[|PaidAt(l0)| + k]) {
      if k < |cs| { BacksLonger(says, first, l1, l2, cs[k], PaidAt(l1)[|PaidAt(l0)| + k]); }
      else { assert (cs + ds)[k] == ds[k - |cs|]; }
    }
  }

  /** What holds of a call that starts with a known guard. */
  ghost predicate Checked(says: Guards, first: Address, v: Vault, o: Outcome) {
    GuardKnown(first, o.v) && Matched(says, first, v.log, o.v.log, o.checks)
  }

  lemma OneEvent(says: Guards, first: Address, v: Vault, o: Outcome, e: Event)
    requires GuardKnown(first, v) && o.v.log == v.log + [e] && o.checks == [] && !e.Withdrawn?
    requires o.v.guard == if e.PolicyGuardChanged? then e.newGuard else v.guard
    ensures Checked(says, first, v, o)
  {
    hide Matched, GuardKnown;
    GuardKnownNext(first, v, o.v, e);
    MatchedNothing(says, first, v.log);
    MatchedMore(says, first, v.log, v.log, [], e);
  }

  /** Every payment has a check of its own: an acceptance of just this payment by the guard in force at that moment, on
    * the vault as it then was, also when guards are exchanged in the middle of other payments. */
  lemma {:induction false} PaymentsChecked(says: Guards, first: Address, v: Vault, c: VaultCall)
    requires GuardKnown(first, v)
    ensures Checked(says, first, v, Exec(says, v, c))
    decreases c, 0
  {
    hide Matched, GuardKnown, PaidAt;
    var o := Exec(says, v, c);
    MatchedNothing(says, first, v.log);
    match c
    case Receive(from, value) => OneEvent(says, first, v, o, Deposited(from, value));
    case Withdraw(_, _, _, _, _) => if o.ok { PaymentChecked(says, first, v, c); }
    case SetPolicyGuard(_, newGuard) => if o.ok { OneEvent(says, first, v, o, PolicyGuardChanged(v.guard, newGuard)); }
    case SetOperator(_, newOperator) => if o.ok { OneEvent(says, first, v, o, OperatorChanged(v.operator, newOperator)); }
    case SetOwner(_, newOwner) => if o.ok { OneEvent(says, first, v, o, OwnerChanged(v.owner, newOwner)); }
    case Group(inner, accepts) => AllPaymentsChecked(says, first, v, inner);
  }

  lemma {:induction false} PaymentChecked(says: Guards, first: Address, v: Vault, c: VaultCall)
    requires GuardKnown(first, v) && c.Withdraw? && Exec(says, v, c).ok
    ensures Checked(says, first, v, Exec(says, v, c))
    decreases c.inner, 1
  {
    hide Matched, PaidAt, RunAll, GuardAt;
    var o := Exec(says, v, c);
    var a := Asked(v, c.to, c.amount);
    MatchedNothing(says, first, v.log);
    if c.to == SELF {
      var v1 := v.(log := v.log + [Deposited(SELF, c.amount)]);
      GuardKnownNext(first, v, v1, Deposited(SELF, c.amount));
      MatchedMore(says, first, v.log, v.log, [], Deposited(SELF, c.amount));
      MatchedPayment(says, first, v.log, v1.log, [], a);
      assert o.v.log == v1.log + [Withdrawn(c.to, c.amount)];
      GuardKnownNext(first, v1, o.v, Withdrawn(c.to, c.amount));
      assert [] + [a] == o.checks;
    } else {
      var paid := v.(balance := v.balance - c.amount);
      AllPaymentsChecked(says, first, paid, c.inner);
      var after := RunAll(says, paid, c.inner);
      MatchedPrefix(says, first, v.log, after.v.log, after.checks);
      MatchedPayment(says, first, v.log, after.v.log, after.checks, a);
      GuardKnownNext(first, after.v, o.v, Withdrawn(c.to, c.amount));
    }
  }

  lemma MatchedPrefix(says: Guards, first: Address, before: seq<Event>, log: seq<Event>, checks: seq<Asked>)
    requires Matched(says, first, before, log, checks)
    ensures before <= log
  {
  }

  lemma {:induction false} AllPaymentsChecked(says: Guards, first: Address, v: Vault, calls: seq<VaultCall>)
    requires GuardKnown(first, v)
    ensures Checked(says, first, v, RunAll(says, v, calls))
    decreases calls, 0
  {
    hide Matched, GuardKnown, Exec;
    if |calls| == 0 {
      MatchedNothing(says, first, v.log);
    } else {
      var o := Exec(says, v, calls[0]);
      var rest := RunAll(says, o.v, calls[1..]);
      PaymentsChecked(says, first, v, calls[0]);
      AllPaymentsChecked(says, first, o.v, calls[1..]);
      MatchedThen(says, first, v.log, o.v.log, rest.v.log, o.checks, rest.checks);
    }
  }

  /** And that state of the vault is one that it went through. */
  lemma {:induction false} ChecksOccur(says: Guards, v: Vault, c: VaultCall, k: nat)
    requires k < |Exec(says, v, c).checks|
    ensures Occurs(says, v, c, Exec(says, v, c).checks[k].at)
    decreases c, 0
  {
    if c.Withdraw? && c.to != SELF {
      var paid := v.(balance := v.balance - c.amount);
      if k < |RunAll(says, paid, c.inner).checks| { AllChecksOccur(says, paid, c.inner, k); }
    }
    if c.Group? { AllChecksOccur(says, v, c.inner, k); }
  }

  lemma {:induction false} AllChecksOccur(says: Guards, v: Vault, calls: seq<VaultCall>, k: nat)
    requires k < |RunAll(says, v, calls).checks|
    ensures OccursInAll(says, v, calls, RunAll(says, v, calls).checks[k].at)
    decreases calls, 0
  {
    var o := Exec(says, v, calls[0]);
    if k < |o.checks| { ChecksOccur(says, v, calls[0], k); }
    else { AllChecksOccur(says, o.v, calls[1..], k - |o.checks|); }
  }

  /** All of it, for a vault from its deployment on: as many checks as payments, and the k-th payment of the log was
    * accepted in the k-th check, by the guard then in force, on a state that the vault was in, before it was paid. */
  lemma EveryPaymentAccepted(says: Guards, owner: Address, operator: Address, guard: Address, calls: seq<VaultCall>, k: nat)
    requires k < |PaidAt(ExecAll(says, Deployed(owner, operator, guard), calls).log)|
    ensures
      var o := RunAll(says, Deployed(owner, operator, guard), calls);
      && |o.checks| == |PaidAt(o.v.log)|
      && var n, a := PaidAt(o.v.log)[k], o.checks[k];
         && n < |o.v.log| && o.v.log[n] == Withdrawn(a.to, a.amount)
         && a.at.log <= o.v.log && |a.at.log| <= n
         && a.at.guard == GuardAt(guard, a.at.log) && says(a.at.guard, a.at, a.to, a.amount)
         && OccursInAll(says, Deployed(owner, operator, guard), calls, a.at)
  {
    var v := Deployed(owner, operator, guard);
    AllPaymentsChecked(says, guard, v, calls);
    AllChecksOccur(says, v, calls, k);
    assert PaidAt([]) == [];
    assert Backs(says, guard, RunAll(says, v, calls).v.log, RunAll(says, v, calls).checks[k], PaidAt(RunAll(says, v, calls).v.log)[|PaidAt(v.log)| + k]);
  }

  lemma {:induction false} PaidAtFinds(log: seq<Event>, j: nat)
    requires j < |log| && log[j].Withdrawn?
    ensures exists k :: 0 <= k < |PaidAt(log)| && PaidAt(log)[k] == j
  {
    var n := |log| - 1;
    if j < n {
      PaidAtFinds(log[..n], j);
      var k :| 0 <= k < |PaidAt(log[..n])| && PaidAt(log[..n])[k] == j;
      assert PaidAt(log)[k] == j;
    } else {
      assert PaidAt(log)[|PaidAt(log)| - 1] == j;
    }
  }

  lemma {:induction false} GuardUnchanged(first: Address, log: seq<Event>, n: nat)
    requires n <= |log| && forall j :: 0 <= j < |log| ==> !log[j].PolicyGuardChanged?
    ensures GuardAt(first, log[..n]) == first
  {
    if n > 0 {
      assert log[..n][..n - 1] == log[..n - 1];
      GuardUnchanged(first, log, n - 1);
    }
  }

  /** Behind the V1 guard, as long as it is not exchanged, every payment of any call tree goes to a non-zero address
    * and is at most 0.001 ether. */
  lemma V1Limits(says: Guards, v1: Address, owner: Address, operator: Address, calls: seq<VaultCall>, j: nat)
    requires forall v: Vault, to, amount :: says(v1, v, to, amount) == PolicyGuardV1.Check(to, amount)
    requires
      var log := ExecAll(says, Deployed(owner, operator, v1), calls).log;
      (forall i :: 0 <= i < |log| ==> !log[i].PolicyGuardChanged?) && j < |log| && log[j].Withdrawn?
    ensures
      var e := ExecAll(says, Deployed(owner, operator, v1), calls).log[j];
      e.to != 0 && 0 < e.amount <= 1_000_000_000_000_000
  {
    hide RunAll, PaidAt;
    var end := ExecAll(says, Deployed(owner, operator, v1), calls);
    PaidAtFinds(end.log, j);
    var k :| 0 <= k < |PaidAt(end.log)| && PaidAt(end.log)[k] == j;
    EveryPaymentAccepted(says, owner, operator, v1, calls, k);
    var a := RunAll(says, Deployed(owner, operator, v1), calls).checks[k];
    assert a.at.log == end.log[..|a.at.log|];
    GuardUnchanged(v1, end.log, |a.at.log|);
  }

  /** What a withdrawal behind the V1 guard comes to: nothing, if the guard refuses; and otherwise a payment that also needs
    * an authorised caller, the balance, and a recipient that accepts. */
  lemma V1Decides(says: Guards, v1: Address, v: Vault, c: VaultCall)
    requires forall w: Vault, to, amount :: says(v1, w, to, amount) == PolicyGuardV1.Check(to, amount)
    requires v.guard == v1 && c.Withdraw?
    ensures Exec(says, v, c).ok <==>
              && c.to != 0 && 0 < c.amount <= 1_000_000_000_000_000 && (c.sender == v.owner || c.sender == v.operator)
              && c.amount <= v.balance && (c.to == SELF || c.accepts)
    ensures !Exec(says, v, c).ok ==> Exec(says, v, c).v == v
  {
  }

  // ---------- who may do what ----------

  /** No caller anywhere in the tree is one of these. */
  ghost predicate NoneBy(c: VaultCall, who: set<Address>)
    decreases c, 0
  {
    match c
    case Receive(_, _) => true
    case Withdraw(sender, _, _, inner, _) => sender !in who && NoneOfAll(inner, who)
    case SetPolicyGuard(sender, _) => sender !in who
    case SetOperator(sender, _) => sender !in who
    case SetOwner(sender, _) => sender !in who
    case Group(inner, _) => NoneOfAll(inner, who)
  }

  ghost predicate NoneOfAll(calls: seq<VaultCall>, who: set<Address>)
    decreases calls, 0
  {
    |calls| > 0 ==> NoneBy(calls[0], who) && NoneOfAll(calls[1..], who)
  }

  predicate OnlyPaidIn(v: Vault, v': Vault) {
    v'.owner == v.owner && v'.operator == v.operator && v'.guard == v.guard && v.balance <= v'.balance && SumOut(v'.log) == SumOut(v.log)
  }

  /** Callers other than the owner and the operator can only pay in, however they nest their calls. */
  lemma {:induction false} OutsidersOnlyPayIn(says: Guards, v: Vault, c: VaultCall)
    requires NoneBy(c, {v.owner, v.operator})
    ensures OnlyPaidIn(v, Exec(says, v, c).v)
    decreases c, 0
  {
    match c
    case Receive(from, value) => Logged(v.log, Deposited(from, value));
    case Group(inner, accepts) => AllOutsidersOnlyPayIn(says, v, inner);
    case _ =>
  }

  lemma {:induction false} AllOutsidersOnlyPayIn(says: Guards, v: Vault, calls: seq<VaultCall>)
    requires NoneOfAll(calls, {v.owner, v.operator})
    ensures OnlyPaidIn(v, ExecAll(says, v, calls))
    decreases calls, 0
  {
    if |calls| > 0 {
      OutsidersOnlyPayIn(says, v, calls[0]);
      AllOutsidersOnlyPayIn(says, Exec(says, v, calls[0]).v, calls[1..]);
    }
  }

  predicate SameRoles(v: Vault, v': Vault) { v'.owner == v.owner && v'.operator == v.operator && v'.guard == v.guard }

  /** Everything in the list was accepted by this guard. */
  predicate AcceptedBy(says: Guards, guard: Address, checks: seq<Asked>) {
    forall k :: 0 <= k < |checks| ==> checks[k].at.guard == guard && says(guard, checks[k].at, checks[k].to, checks[k].amount)
  }

  /** Whatever the operator and everybody else but the owner call, however they nest it: owner, operator and guard stay,
    * and all that leaves the vault was accepted by the guard that was there before. */
  lemma {:induction false} OnlyOwnerConfigures(says: Guards, v: Vault, c: VaultCall)
    requires NoneBy(c, {v.owner})
    ensures SameRoles(v, Exec(says, v, c).v) && AcceptedBy(says, v.guard, Exec(says, v, c).checks)
    decreases c, 0
  {
    match c
    case Withdraw(_, to, amount, inner, _) => if to != SELF && amount <= v.balance { AllOnlyOwnerConfigures(says, v.(balance := v.balance - amount), inner); }
    case Group(inner, _) => AllOnlyOwnerConfigures(says, v, inner);
    case _ =>
  }

  lemma {:induction false} AllOnlyOwnerConfigures(says: Guards, v: Vault, calls: seq<VaultCall>)
    requires NoneOfAll(calls, {v.owner})
    ensures SameRoles(v, RunAll(says, v, calls).v) && AcceptedBy(says, v.guard, RunAll(says, v, calls).checks)
    decreases calls, 0
  {
    if |calls| > 0 {
      OnlyOwnerConfigures(says, v, calls[0]);
      AllOnlyOwnerConfigures(says, Exec(says, v, calls[0]).v, calls[1..]);
    }
  }

  // ---------- one call after the other ----------

  /** Calls are independent: each runs on what the ones before it left, also when some of those reverted. */
  lemma {:induction false} OneAfterTheOther(says: Guards, v: Vault, calls: seq<VaultCall>, c: VaultCall)
    ensures
      var before, all := RunAll(says, v, calls), RunAll(says, v, calls + [c]);
      all.v == Exec(says, before.v, c).v && all.checks == before.checks + Exec(says, before.v, c).checks
    decreases |calls|
  {
    hide Exec;
    if |calls| == 0 {
      assert calls + [c] == [c];
      assert [c][1..] == [];
    } else {
      OneAfterTheOther(says, Exec(says, v, calls[0]).v, calls[1..], c);
      assert (calls + [c])[1..] == calls[1..] + [c];
    }
  }
}

/** contracts/contracts/PolicyVault.sol itself: the contract's storage, changed in place by its functions; a call that
  * reverts has its changes, and those of everything below it, taken back. */
module PolicyVaultContract {
  import opened Domain
  import opened VaultCalls

  class PolicyVault {
    const says: Guards
    var owner: Address
    var operator: Address
    var policyGuard: Address
    var balance: Wei
    var log: seq<Event>
    var checks: seq<Asked>   // of the payments in the log

    function View(): Vault
      reads this
    {
      Vault(owner, operator, policyGuard, balance, log)
    }

    constructor (says: Guards, initialOwner: Address, initialOperator: Address, initialGuard: Address)
      requires initialOwner != 0 && initialOperator != 0 && initialGuard != 0   // deployment reverts otherwise
      ensures this.says == says && View() == Deployed(initialOwner, initialOperator, initialGuard) && checks == []
    {
      this.says, owner, operator, policyGuard := says, initialOwner, initialOperator, initialGuard;
      balance, log, checks := 0, [], [];
    }

    /** The machine's part of a call: it keeps the storage of the moment, runs the function, and puts the storage back
      * if that reverts. */
    method Enter(c: VaultCall) returns (ok: bool)
      modifies this
      ensures ok == Exec(says, old(View()), c).ok
      ensures View() == Exec(says, old(View()), c).v && checks == old(checks) + Exec(says, old(View()), c).checks
      ensures !ok ==> View() == old(View()) && checks == old(checks)
      ensures c.Receive? ==> ok
      ensures c.Group? ==> ok == c.accepts && (ok ==> View() == RunAll(says, old(View()), c.inner).v)
      ensures Excess(View()) == old(Excess(View()))
      decreases c, 2
    {
      var before, checksBefore := View(), checks;
      match c {
        case Receive(from, value) => ReceiveEther(from, value); ok := true;
        case Withdraw(_, _, _, _, _) => ok := DoWithdraw(c);
        case SetPolicyGuard(sender, newGuard) => ok := DoSetPolicyGuard(sender, newGuard);
        case SetOperator(sender, newOperator) => ok := DoSetOperator(sender, newOperator);
        case SetOwner(sender, newOwner) => ok := DoSetOwner(sender, newOwner);
        case Group(_, accepts) => EnterInner(c); ok := accepts;
      }
      if !ok {
        owner, operator, policyGuard, balance, log := before.owner, before.operator, before.guard, before.balance, before.log;
        checks := checksBefore;
      }
      Conserves(says, before, c);
    }

    /** The calls that a contract makes into the vault, one after the other; it goes on when one of them reverts. */
    method EnterInner(c: VaultCall)
      requires c.Group? || c.Withdraw?
      modifies this
      ensures View() == RunAll(says, old(View()), c.inner).v && checks == old(checks) + RunAll(says, old(View()), c.inner).checks
      decreases c, 0
    {
      var i := 0;
      while i < |c.inner|
        invariant 0 <= i <= |c.inner|
        invariant RunAll(says, View(), c.inner[i..]).v == RunAll(says, old(View()), c.inner).v
        invariant checks + RunAll(says, View(), c.inner[i..]).checks == old(checks) + RunAll(says, old(View()), c.inner).checks
      {
        assert c.inner[i..][0] == c.inner[i] && c.inner[i..][1..] == c.inner[i + 1..];
        var _ := Enter(c.inner[i]);
        i := i + 1;
      }
    }

    method ReceiveEther(from: Address, value: Wei)
      modifies this`balance, this`log
      ensures View() == Exec(says, old(View()), Receive(from, value)).v
      ensures balance == old(balance) + value && log == old(log) + [Deposited(from, value)]
    {
      balance := balance + value;
      log := log + [Deposited(from, value)];
    }

    method DoWithdraw(c: VaultCall) returns (ok: bool)
      requires c.Withdraw?
      modifies this
      ensures ok == Exec(says, old(View()), c).ok
      ensures ok ==> View() == Exec(says, old(View()), c).v && checks == old(checks) + Exec(says, old(View()), c).checks
      ensures ok <==>
                && (c.sender == old(owner) || c.sender == old(operator)) && says(old(policyGuard), old(View()), c.to, c.amount)
                && c.amount <= old(balance) && (c.to == SELF || c.accepts)
      ensures ok && c.to == SELF ==> View() == old(View()).(log := old(log) + [Deposited(SELF, c.amount), Withdrawn(SELF, c.amount)])
      ensures ok && c.to != SELF ==>
                var after := RunAll(says, old(View()).(balance := old(balance) - c.amount), c.inner);
                View() == after.v.(log := after.v.log + [Withdrawn(c.to, c.amount)]) && checks == old(checks) + after.checks + [Asked(old(View()), c.to, c.amount)]
      decreases c, 1
    {
      if c.sender != owner && c.sender != operator { return false; }
      if !says(policyGuard, View(), c.to, c.amount) { return false; }
      if balance < c.amount { return false; }
      var asked := Asked(View(), c.to, c.amount);
      balance := balance - c.amount;
      var success := true;
      if c.to == SELF {
        ReceiveEther(SELF, c.amount);
        assert log + [Withdrawn(c.to, c.amount)] == old(log) + [Deposited(SELF, c.amount), Withdrawn(c.to, c.amount)];
      } else {
        EnterInner(c);
        success := c.accepts;
      }
      if !success { return false; }
      log, checks := log + [Withdrawn(c.to, c.amount)], checks + [asked];
      ok := true;
    }

    method DoSetPolicyGuard(sender: Address, newGuard: Address) returns (ok: bool)
      modifies this`policyGuard, this`log
      ensures ok == Exec(says, old(View()), SetPolicyGuard(sender, newGuard)).ok
      ensures View() == Exec(says, old(View()), SetPolicyGuard(sender, newGuard)).v
      ensures ok <==> sender == old(owner) && newGuard != 0
      ensures policyGuard == if ok then newGuard else old(policyGuard)
      ensures log == old(log) + if ok then [PolicyGuardChanged(old(policyGuard), newGuard)] else []
    {
      if sender != owner || newGuard == 0 { return false; }
      var previousGuard := policyGuard;
      policyGuard := newGuard;
      log := log + [PolicyGuardChanged(previousGuard, newGuard)];
      ok := true;
    }

    method DoSetOperator(sender: Address, newOperator: Address) returns (ok: bool)
      modifies this`operator, this`log
      ensures ok == Exec(says, old(View()), SetOperator(sender, newOperator)).ok
      ensures View() == Exec(says, old(View()), SetOperator(sender, newOperator)).v
      ensures ok <==> sender == old(owner) && newOperator != 0
      ensures operator == if ok then newOperator else old(operator)
      ensures log == old(log) + if ok then [OperatorChanged(old(operator), newOperator)] else []
    {
      if sender != owner || newOperator == 0 { return false; }
      var previousOperator := operator;
      operator := newOperator;
      log := log + [OperatorChanged(previousOperator, newOperator)];
      ok := true;
    }

    method DoSetOwner(sender: Address, newOwner: Address) returns (ok: bool)
      modifies this`owner, this`log
      ensures ok == Exec(says, old(View()), SetOwner(sender, newOwner)).ok
      ensures View() == Exec(says, old(View()), SetOwner(sender, newOwner)).v
      ensures ok <==> sender == old(owner) && newOwner != 0
      ensures owner == if ok then newOwner else old(owner)
      ensures log == old(log) + if ok then [OwnerChanged(old(owner), newOwner)] else []
    {
      if sender != owner || newOwner == 0 { return false; }
      var previousOwner := owner;
      owner := newOwner;
      log := log + [OwnerChanged(previousOwner, newOwner)];
      ok := true;
    }
  }
}

/** contracts/contracts/PolicyGuardV1.sol */
module PolicyGuardV1 {
  const MAX_SINGLE_TRANSFER: nat := 1_000_000_000_000_000   // 0.001 ether

  function Check(to: nat, amount: nat): bool {
    if to == 0 then false
    else if amount == 0 then false
    else if amount > MAX_SINGLE_TRANSFER then false
    else true
  }
}

// BondVaultV2: custody of posted bonds. BondVault (V1) has the same storage transitions.
module Vault {
  import opened Common
  import Ledger

  datatype BondStatus = Locked | Released | Slashed

  datatype Bond = Bond(agent: Address, amount: nat, status: BondStatus)

  datatype Store = Store(
    owner: Address,
    controller: Address,
    controllerFinalized: bool,
    bonds: map<nat, Bond>,
    totalLocked: nat)

  /** The challenger's part of a slashed bond; the rest goes to the pool. */
  function ChallengerShare(amount: nat, bps: nat): nat {
    amount * bps / 10_000
  }

  function SetController(v: Store, caller: Address, controller: Address): Result<Store> {
    if caller != v.owner then Err(NotOwner)
    else if v.controllerFinalized then Err(ControllerFinalized)
    else Ok(v.(controller := controller, controllerFinalized := true))
  }

  function DepositAndLock(self: Address, v: Store, t: Ledger.Store, caller: Address, id: nat, agent: Address, amount: nat)
    : Result<(Store, Ledger.Store)>
  {
    if caller != v.controller then Err(NotController)
    else if id in v.bonds then Err(BondAlreadyExists)
    else
      var t' :- Ledger.TransferFrom(t, self, agent, self, amount);
      Ok((v.(bonds := v.bonds[id := Bond(agent, amount, Locked)], totalLocked := v.totalLocked + amount), t'))
  }

  function LockedBond(v: Store, id: nat): Result<Bond> {
    if id !in v.bonds then Err(BondNotFound)
    else if v.bonds[id].status != Locked then Err(BondNotLocked)
    else Ok(v.bonds[id])
  }

  function Close(v: Store, id: nat, bond: Bond, status: BondStatus): Result<Store> {
    if v.totalLocked < bond.amount then Err(ArithmeticUnderflow)
    else Ok(v.(bonds := v.bonds[id := bond.(status := status)], totalLocked := v.totalLocked - bond.amount))
  }

  function Release(self: Address, v: Store, t: Ledger.Store, caller: Address, id: nat): Result<(Store, Ledger.Store)> {
    if caller != v.controller then Err(NotController)
    else
      var bond :- LockedBond(v, id);
      var t' :- Ledger.Transfer(t, self, bond.agent, bond.amount);
      var v' :- Close(v, id, bond, Released);
      Ok((v', t'))
  }

  function Slash(self: Address, v: Store, t: Ledger.Store, caller: Address, id: nat,
                 challenger: Address, pool: Address, bps: nat): Result<(Store, Ledger.Store)>
  {
    if caller != v.controller then Err(NotController)
    else if bps > 10_000 then Err(InvalidBasisPoints)
    else
      var bond :- LockedBond(v, id);
      var reward := ChallengerShare(bond.amount, bps);
      ShareAtMostAll(bond.amount, bps);
      var t1 :- Ledger.Transfer(t, self, challenger, reward);
      var t2 :- Ledger.Transfer(t1, self, pool, bond.amount - reward);
      var v' :- Close(v, id, bond, Slashed);
      Ok((v', t2))
  }

  lemma ShareAtMostAll(amount: nat, bps: nat)
    requires bps <= 10_000
    ensures ChallengerShare(amount, bps) <= amount
  {
    assert amount * bps <= amount * 10_000;
  }

  /** What the vault refuses, and with which reason, before any money moves. */
  lemma Refusals(self: Address, v: Store, t: Ledger.Store, caller: Address, id: nat, agent: Address, amount: nat,
                 challenger: Address, pool: Address, bps: nat)
    ensures caller != v.controller ==>
              && DepositAndLock(self, v, t, caller, id, agent, amount) == Err(NotController)
              && Release(self, v, t, caller, id) == Err(NotController)
              && Slash(self, v, t, caller, id, challenger, pool, bps) == Err(NotController)
    ensures caller == v.controller && id in v.bonds ==> DepositAndLock(self, v, t, caller, id, agent, amount) == Err(BondAlreadyExists)
    ensures caller == v.controller && id !in v.bonds ==> Release(self, v, t, caller, id) == Err(BondNotFound)
    ensures caller == v.controller && id in v.bonds && v.bonds[id].status != Locked ==>
              Release(self, v, t, caller, id) == Err(BondNotLocked)
    ensures caller == v.controller && bps > 10_000 ==> Slash(self, v, t, caller, id, challenger, pool, bps) == Err(InvalidBasisPoints)
    ensures caller == v.controller && bps <= 10_000 && id !in v.bonds ==>
              Slash(self, v, t, caller, id, challenger, pool, bps) == Err(BondNotFound)
    ensures caller == v.controller && bps <= 10_000 && id in v.bonds && v.bonds[id].status != Locked ==>
              Slash(self, v, t, caller, id, challenger, pool, bps) == Err(BondNotLocked)
  {
  }
}

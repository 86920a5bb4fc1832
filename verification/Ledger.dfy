// The CEP-18 token every contract moves money through: MockCsprUSD and the ledger it delegates to.
module Ledger {
  import opened Common

  datatype Store = Store(
    owner: Address,
    supply: nat,
    balances: map<Address, nat>,
    allowances: map<(Address, Address), nat>)
  {
    function Balance(a: Address): nat {
      if a in balances then balances[a] else 0
    }

    function Allowance(holder: Address, spender: Address): nat {
      if (holder, spender) in allowances then allowances[(holder, spender)] else 0
    }
  }

  function Mint(t: Store, caller: Address, to: Address, amount: nat): Result<Store> {
    if caller != t.owner then Err(NotOwner)
    else Ok(t.(supply := t.supply + amount, balances := t.balances[to := t.Balance(to) + amount]))
  }

  function Move(t: Store, source: Address, to: Address, amount: nat): Result<Store>
    requires source != to
  {
    if t.Balance(source) < amount then Err(InsufficientBalance)
    else Ok(t.(balances := t.balances[source := t.Balance(source) - amount][to := t.Balance(to) + amount]))
  }

  function Transfer(t: Store, caller: Address, to: Address, amount: nat): Result<Store> {
    if caller == to then Err(CannotTargetSelf) else Move(t, caller, to, amount)
  }

  function TransferFrom(t: Store, caller: Address, holder: Address, to: Address, amount: nat): Result<Store> {
    if holder == to then Err(CannotTargetSelf)
    else if t.Allowance(holder, caller) < amount then Err(InsufficientAllowance)
    else
      var spent := t.(allowances := t.allowances[(holder, caller) := t.Allowance(holder, caller) - amount]);
      Move(spent, holder, to, amount)
  }

  function Allow(t: Store, caller: Address, spender: Address, amount: nat): Result<Store> {
    if caller == spender then Err(CannotTargetSelf)
    else Ok(t.(allowances := t.allowances[(caller, spender) := amount]))
  }

  /** A move conserves the money: it shifts exactly `amount` and nobody else's balance changes. */
  lemma MoveConserves(t: Store, source: Address, to: Address, amount: nat)
    requires source != to && Move(t, source, to, amount).Ok?
    ensures var u := Move(t, source, to, amount).value;
            && Total(u.balances) == Total(t.balances)
            && u.Balance(source) == t.Balance(source) - amount
            && u.Balance(to) == t.Balance(to) + amount
            && (forall a :: a != source && a != to ==> u.Balance(a) == t.Balance(a))
  {
    TotalUpdate(t.balances, source, t.Balance(source) - amount);
    TotalUpdate(t.balances[source := t.Balance(source) - amount], to, t.Balance(to) + amount);
  }

  /** What the token refuses, and with which reason. */
  lemma Refusals(t: Store, caller: Address, holder: Address, to: Address, amount: nat)
    ensures Mint(t, caller, to, amount) == Err(NotOwner) <==> caller != t.owner
    ensures Transfer(t, caller, to, amount) == Err(CannotTargetSelf) <==> caller == to
    ensures Transfer(t, caller, to, amount) == Err(InsufficientBalance) <==> caller != to && t.Balance(caller) < amount
    ensures TransferFrom(t, caller, holder, to, amount) == Err(CannotTargetSelf) <==> holder == to
    ensures TransferFrom(t, caller, holder, to, amount) == Err(InsufficientAllowance) <==>
              holder != to && t.Allowance(holder, caller) < amount
    ensures TransferFrom(t, caller, holder, to, amount) == Err(InsufficientBalance) <==>
              holder != to && amount <= t.Allowance(holder, caller) && t.Balance(holder) < amount
    ensures Allow(t, caller, to, amount) == Err(CannotTargetSelf) <==> caller == to
    ensures Transfer(t, caller, to, amount).Ok? <==> caller != to && amount <= t.Balance(caller)
    ensures Allow(t, caller, to, amount).Ok? <==> caller != to
  {
  }
}

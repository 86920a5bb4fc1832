// Shared vocabulary: addresses, byte strings, reverts, and sums over finite maps.
module Common {

  datatype Option<+T> = None | Some(value: T)

  /** Why a call reverted: the error enums of the four contracts, and the ledger's own failures. */
  datatype Error =
    | ActionNotFound | NotAgent | InvalidStatus | InsufficientBond | NotOwner | PoolFinalized
    | UnregisteredVerifier | FaultNotConfirmed | NotDuplicate | ChallengeWindowClosed | WindowStillOpen
    | NotController | BondAlreadyExists | BondNotFound | BondNotLocked | InvalidBasisPoints
    | ControllerFinalized | InvoiceAlreadyExists | InvoiceNotFound | InvoiceAlreadyPaid | InvoiceMismatch
    | InsufficientBalance | InsufficientAllowance | CannotTargetSelf | ArithmeticUnderflow

  datatype Result<+T> = Ok(value: T) | Err(error: Error) {
    predicate IsFailure() {
      Err?
    }

    function PropagateFailure<U>(): Result<U>
      requires Err?
    {
      Err(error)
    }

    function Extract(): T
      requires Ok?
    {
      value
    }
  }

  datatype Address = Address(id: nat)

  type Byte = b: int | 0 <= b < 256

  type Bytes = seq<Byte>

  /** How a method's outcome follows its specification: the same revert, or success in the state it names.
      What a reverted call left behind is undone by the transaction that made it. */
  ghost predicate Follows<T>(outcome: Result<()>, spec: Result<T>, state: T) {
    match spec
    case Ok(next) => outcome.Ok? && state == next
    case Err(error) => outcome == Err(error)
  }

  ghost function AnyKey<K>(m: map<K, nat>): (k: K)
    requires m != map[]
    ensures k in m
  {
    var k :| k in m;
    k
  }

  /** The sum of a finite map's values. */
  ghost function Total<K>(m: map<K, nat>): nat {
    if m == map[] then 0 else
      var k := AnyKey(m);
      assert |m - {k}| < |m| by { assert (m - {k}).Keys == m.Keys - {k}; }
      m[k] + Total(m - {k})
  }

  lemma {:induction false} TotalSplit<K>(m: map<K, nat>, k: K)
    requires k in m
    ensures Total(m) == m[k] + Total(m - {k})
    decreases |m|
  {
    var j := AnyKey(m);
    if j != k {
      assert (m - {j}).Keys == m.Keys - {j} && (m - {k}).Keys == m.Keys - {k};
      TotalSplit(m - {j}, k);
      TotalSplit(m - {k}, j);
      assert m - {j} - {k} == m - {k} - {j};
    }
  }

  lemma TotalUpdate<K>(m: map<K, nat>, k: K, v: nat)
    ensures Total(m[k := v]) == Total(m) - (if k in m then m[k] else 0) + v
  {
    TotalSplit(m[k := v], k);
    assert m[k := v] - {k} == m - {k};
    if k in m {
      TotalSplit(m, k);
    } else {
      assert m - {k} == m;
    }
  }
}

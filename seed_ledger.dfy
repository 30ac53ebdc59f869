/**
 * The accounting of a seed's aggregate staked balance, on values.
 *
 * `FarmSeed.add_amount` and `FarmSeed.sub_amount` are the only operations that
 * change the balance. Here each call is a `LedgerOp`, `Step` is the effect of
 * one call (None when the call aborts) and `Replay` runs a whole history of
 * calls. The lemmas state conservation: a history that runs to completion
 * ends at the start plus all additions minus all subtractions, and a history
 * runs to completion exactly when that running total never leaves the
 * unsigned 128-bit range.
 */
module SeedLedger {
  import opened Wrappers

  const U128_BOUND: nat := 0x1_0000_0000_0000_0000_0000_0000_0000_0000

  /** Rust's `Balance` (`u128`); the JSON `U128` wrapper is the same integer. */
  type Balance = x: nat | x < U128_BOUND

  /** One call of `add_amount(n)` or `sub_amount(n)`. */
  datatype LedgerOp = Add(n: Balance) | Sub(n: Balance)

  /** The signed change a call makes to the balance. */
  function Delta(op: LedgerOp): int
  {
    match op
    case Add(n) => n
    case Sub(n) => -(n as int)
  }

  /**
   * The balance after one call, or None when the call aborts: `sub_amount`
   * asserts that it does not go below zero, and `add_amount` may not carry the
   * balance past the 128-bit range.
   */
  function Step(amount: Balance, op: LedgerOp): (r: Option<Balance>)
    ensures r.Some? <==> 0 <= amount + Delta(op) < U128_BOUND
    ensures r.Some? ==> r.value == amount + Delta(op)
  {
    match op
    case Add(n) => if amount + n < U128_BOUND then Some(amount + n) else None
    case Sub(n) => if n <= amount then Some(amount - n) else None
  }

  /** The balance after a whole history of calls, or None if one of them aborts. */
  function Replay(start: Balance, ops: seq<LedgerOp>): Option<Balance>
    decreases |ops|
  {
    if ops == [] then Some(start)
    else
      match Step(start, ops[0])
      case None => None
      case Some(next) => Replay(next, ops[1..])
  }

  /** Total of all `add_amount` arguments in a history. */
  function Deposited(ops: seq<LedgerOp>): nat
  {
    if ops == [] then 0
    else (if ops[0].Add? then ops[0].n else 0) + Deposited(ops[1..])
  }

  /** Total of all `sub_amount` arguments in a history. */
  function Withdrawn(ops: seq<LedgerOp>): nat
  {
    if ops == [] then 0
    else (if ops[0].Sub? then ops[0].n else 0) + Withdrawn(ops[1..])
  }

  /** The reference definition of the balance: start plus additions minus subtractions. */
  function Net(start: int, ops: seq<LedgerOp>): int
  {
    start + Deposited(ops) - Withdrawn(ops)
  }

  /** Every prefix of the history leaves the running total inside the 128-bit range. */
  ghost predicate InRangeThroughout(start: int, ops: seq<LedgerOp>)
  {
    forall k | 0 <= k <= |ops| :: 0 <= Net(start, ops[..k]) < U128_BOUND
  }

  /** Peeling the first call off a prefix of a history. */
  lemma NetOfPrefix(start: int, ops: seq<LedgerOp>, k: nat)
    requires 1 <= k <= |ops|
    ensures Net(start, ops[..k]) == Net(start + Delta(ops[0]), ops[1..][..k - 1])
  {
    assert ops[..k][0] == ops[0];
    assert ops[..k][1..] == ops[1..][..k - 1];
  }

  /**
   * Conservation: a history runs to completion exactly when every prefix stays
   * within the 128-bit range, and then it ends at start + adds - subs.
   */
  lemma {:induction false} ReplayConserves(start: Balance, ops: seq<LedgerOp>)
    ensures Replay(start, ops).Some? <==> InRangeThroughout(start, ops)
    ensures Replay(start, ops).Some? ==> Replay(start, ops).value == Net(start, ops)
    decreases |ops|
  {
    if ops == [] {
      assert ops[..0] == [];
    } else {
      var op, rest := ops[0], ops[1..];
      NetOfPrefix(start, ops, 1);
      assert rest[..0] == [];
      match Step(start, op)
      case None =>
        assert !(0 <= Net(start, ops[..1]) < U128_BOUND);
      case Some(next) =>
        ReplayConserves(next, rest);
        if InRangeThroughout(next, rest) {
          forall k | 0 <= k <= |ops|
            ensures 0 <= Net(start, ops[..k]) < U128_BOUND
          {
            if k == 0 {
              assert ops[..0] == [];
            } else {
              NetOfPrefix(start, ops, k);
            }
          }
        }
        if InRangeThroughout(start, ops) {
          forall j | 0 <= j <= |rest|
            ensures 0 <= Net(next, rest[..j]) < U128_BOUND
          {
            NetOfPrefix(start, ops, j + 1);
          }
        }
        assert ops[..|ops|] == ops;
        assert rest[..|rest|] == rest;
        NetOfPrefix(start, ops, |ops|);
    }
  }

  /** Appending one call to a history runs that call on the history's result. */
  lemma {:induction false} ReplayAppend(start: Balance, ops: seq<LedgerOp>, op: LedgerOp)
    ensures Replay(start, ops + [op]) ==
      match Replay(start, ops)
      case None => None
      case Some(b) => Step(b, op)
    decreases |ops|
  {
    if ops == [] {
      assert ops + [op] == [op];
      assert [op][1..] == [];
    } else {
      assert (ops + [op])[0] == ops[0];
      assert (ops + [op])[1..] == ops[1..] + [op];
      match Step(start, ops[0])
      case None =>
      case Some(next) =>
        ReplayAppend(next, ops[1..], op);
    }
  }

  /** A history that reached `b`, extended by a call that succeeds from `b`, reaches that call's result. */
  lemma ReplayExtend(start: Balance, ops: seq<LedgerOp>, b: Balance, op: LedgerOp)
    requires Replay(start, ops) == Some(b) && Step(b, op).Some?
    ensures Replay(start, ops + [op]) == Step(b, op)
  {
    ReplayAppend(start, ops, op);
  }

  /** `add_amount(a)` followed by `sub_amount(a)` restores the balance. */
  lemma AddThenSubRestores(start: Balance, a: Balance)
    requires start + a < U128_BOUND
    ensures Replay(start, [Add(a), Sub(a)]) == Some(start)
  {
    var raised: Balance := start + a;
    assert Step(start, Add(a)) == Some(raised);
    assert Step(raised, Sub(a)) == Some(start);
    assert [Sub(a)][1..] == [];
    assert Replay(raised, [Sub(a)]) == Replay(start, []);
    assert [Add(a), Sub(a)][1..] == [Sub(a)];
    assert Replay(start, [Add(a), Sub(a)]) == Replay(raised, [Sub(a)]);
  }

  /** A `sub_amount` larger than the balance always aborts, whatever came before. */
  lemma OverdrawAborts(start: Balance, ops: seq<LedgerOp>, a: Balance)
    requires Replay(start, ops).Some? && a > Replay(start, ops).value
    ensures Replay(start, ops + [Sub(a)]) == None
  {
    ReplayAppend(start, ops, Sub(a));
  }
}

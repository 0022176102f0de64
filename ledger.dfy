/**
 The ledger state of the `SimpleToken` contract as plain values: the
 balance mapping with its default-zero lookup, the sum of all balances, and
 the `transfer` state transition. The class in simple_token.dfy is proved
 against these definitions.
 */
module Ledger {

  /** ink!'s default `AccountId`: 32 opaque bytes. */
  type AccountId = a: seq<bv8> | |a| == 32 witness seq(32, _ => 0 as bv8)

  /** One more than the largest `Balance`: ink!'s default `Balance` is `u128`. */
  const BALANCE_BOUND: nat := 0x1_0000_0000_0000_0000_0000_0000_0000_0000

  type Balance = b: nat | b < 0x1_0000_0000_0000_0000_0000_0000_0000_0000

  /** The contents of the `balances` storage mapping. */
  type Balances = map<AccountId, Balance>

  datatype Error = InsufficientBalance

  /** `Result<(), Error>` */
  datatype Outcome = Ok | Err(error: Error)

  /** `balances.get(&account).unwrap_or_default()`: a missing entry reads as 0. */
  function BalanceOf(m: Balances, account: AccountId): (b: Balance)
    ensures account in m ==> b == m[account]
    ensures account !in m ==> b == 0
  {
    if account in m then m[account] else 0
  }

  /** The mapping built by the constructor: the whole supply credited to the caller. */
  function Genesis(caller: AccountId, supply: Balance): (m: Balances)
    ensures BalanceOf(m, caller) == supply
    ensures forall a :: a != caller ==> BalanceOf(m, a) == 0
  {
    var empty: Balances := map[];
    empty[caller := supply]
  }

  /** The sum of the balances stored under `keys`. */
  ghost function SumOver(m: Balances, keys: set<AccountId>): nat
    requires keys <= m.Keys
    decreases keys
  {
    if keys == {} then 0
    else
      var k :| k in keys;
      m[k] + SumOver(m, keys - {k})
  }

  /** The sum of all balances: the quantity the conservation law is about. */
  ghost function Sum(m: Balances): nat
  {
    SumOver(m, m.Keys)
  }

  /**
   The addition `to_balance + value` of a successful transfer fits in a
   `Balance`. `transfer` does not check it; the model requires it.
   */
  predicate CreditFits(m: Balances, from: AccountId, to: AccountId, value: Balance)
  {
    value <= BalanceOf(m, from) ==> BalanceOf(m, to) + value < BALANCE_BOUND
  }

  /**
   `transfer` from `from` to `to`: both balances are read before either is
   written, so when `from == to` the second write wins.
   */
  function Transfer(m: Balances, from: AccountId, to: AccountId, value: Balance): (r: (Outcome, Balances))
    requires CreditFits(m, from, to, value)
    ensures r.0.Ok? <==> value <= BalanceOf(m, from)
    ensures r.0.Err? ==> r.0.error == InsufficientBalance && r.1 == m
    ensures r.0.Ok? && from != to ==>
              BalanceOf(r.1, from) == BalanceOf(m, from) - value &&
              BalanceOf(r.1, to) == BalanceOf(m, to) + value
    ensures r.0.Ok? && from == to ==> BalanceOf(r.1, from) == BalanceOf(m, from) + value
    ensures forall a :: a != from && a != to ==> BalanceOf(r.1, a) == BalanceOf(m, a)
  {
    var fromBalance := BalanceOf(m, from);
    if fromBalance < value then
      (Err(InsufficientBalance), m)
    else
      var toBalance := BalanceOf(m, to);
      (Ok, m[from := fromBalance - value][to := toBalance + value])
  }

  // ---------------------------------------------------------------------
  // Sums over the balance mapping
  // ---------------------------------------------------------------------

  /** Any stored account can be split off the sum, whichever one `SumOver` picks first. */
  lemma {:induction false} SumOverRemove(m: Balances, keys: set<AccountId>, k: AccountId)
    requires keys <= m.Keys && k in keys
    ensures SumOver(m, keys) == m[k] + SumOver(m, keys - {k})
    decreases keys
  {
    var j :| j in keys && SumOver(m, keys) == m[j] + SumOver(m, keys - {j});
    if j != k {
      SumOverRemove(m, keys - {j}, k);
      SumOverRemove(m, keys - {k}, j);
      assert keys - {j} - {k} == keys - {k} - {j};
    }
  }

  /** Two mappings that agree on `keys` have the same sum over `keys`. */
  lemma {:induction false} SumOverAgree(m: Balances, n: Balances, keys: set<AccountId>)
    requires keys <= m.Keys && keys <= n.Keys
    requires forall k :: k in keys ==> m[k] == n[k]
    ensures SumOver(m, keys) == SumOver(n, keys)
    decreases keys
  {
    if keys != {} {
      var k :| k in keys;
      SumOverRemove(m, keys, k);
      SumOverRemove(n, keys, k);
      SumOverAgree(m, n, keys - {k});
    }
  }

  /** Writing `v` under `k` changes the sum by `v` minus what `k` held before. */
  lemma SumUpdate(m: Balances, k: AccountId, v: Balance)
    ensures Sum(m[k := v]) + BalanceOf(m, k) == Sum(m) + v
  {
    var n := m[k := v];
    SumOverRemove(n, n.Keys, k);
    assert n.Keys - {k} == m.Keys - {k};
    SumOverAgree(m, n, m.Keys - {k});
    if k in m {
      SumOverRemove(m, m.Keys, k);
    } else {
      assert m.Keys - {k} == m.Keys;
    }
  }

  /** No single account holds more than the sum of all balances. */
  lemma BalanceBounded(m: Balances, a: AccountId)
    ensures BalanceOf(m, a) <= Sum(m)
  {
    if a in m {
      SumOverRemove(m, m.Keys, a);
    }
  }

  /** Two distinct accounts together hold no more than the sum of all balances. */
  lemma TwoBalancesBounded(m: Balances, a: AccountId, b: AccountId)
    requires a != b
    ensures BalanceOf(m, a) + BalanceOf(m, b) <= Sum(m)
  {
    if a in m {
      SumOverRemove(m, m.Keys, a);
      if b in m {
        SumOverRemove(m, m.Keys - {a}, b);
      }
    } else {
      BalanceBounded(m, b);
    }
  }

  // ---------------------------------------------------------------------
  // Properties of construction and transfer
  // ---------------------------------------------------------------------

  /** The constructor's mapping sums to the supply it was given. */
  lemma GenesisConserves(caller: AccountId, supply: Balance)
    ensures Sum(Genesis(caller, supply)) == supply
  {
    var m := Genesis(caller, supply);
    assert m.Keys == {caller};
    SumOverRemove(m, m.Keys, caller);
    assert m.Keys - {caller} == {};
  }

  /**
   While the balances sum to a supply that is itself a `Balance`, a transfer
   between two distinct accounts cannot overflow the credited balance.
   */
  lemma ConservedCreditFits(m: Balances, supply: Balance, from: AccountId, to: AccountId, value: Balance)
    requires Sum(m) == supply
    requires from != to
    ensures value <= BalanceOf(m, from) ==> BalanceOf(m, to) + value <= supply
    ensures CreditFits(m, from, to, value)
  {
    TwoBalancesBounded(m, from, to);
  }

  /** A transfer between two distinct accounts leaves the sum of all balances unchanged. */
  lemma TransferConserves(m: Balances, from: AccountId, to: AccountId, value: Balance)
    requires CreditFits(m, from, to, value)
    requires from != to
    ensures Sum(Transfer(m, from, to, value).1) == Sum(m)
  {
    var fromBalance := BalanceOf(m, from);
    if value <= fromBalance {
      var toBalance := BalanceOf(m, to);
      var debited := m[from := fromBalance - value];
      SumUpdate(m, from, fromBalance - value);
      assert BalanceOf(debited, to) == toBalance;
      SumUpdate(debited, to, toBalance + value);
    }
  }

  /**
   A successful transfer from an account to itself leaves that account at
   its old balance plus `value`, so the sum of all balances grows by `value`:
   the write of `to_balance + value` overwrites the debit just made.
   */
  lemma SelfTransferInflates(m: Balances, a: AccountId, value: Balance)
    requires CreditFits(m, a, a, value)
    requires value <= BalanceOf(m, a)
    ensures Transfer(m, a, a, value).0 == Ok
    ensures BalanceOf(Transfer(m, a, a, value).1, a) == BalanceOf(m, a) + value
    ensures Sum(Transfer(m, a, a, value).1) == Sum(m) + value
  {
    var fromBalance := BalanceOf(m, a);
    assert m[a := fromBalance - value][a := fromBalance + value] == m[a := fromBalance + value];
    SumUpdate(m, a, fromBalance + value);
  }
}

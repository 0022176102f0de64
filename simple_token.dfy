/**
 The `SimpleToken` contract as a class: the storage struct's two fields, the
 constructor, the two read-only messages and the `transfer` message. The
 ambient caller of the host environment is an explicit `caller` parameter.
 */
module SimpleTokenContract {
  import opened Ledger

  class SimpleToken {
    var balances: Balances
    var totalSupply: Balance

    /** Conservation: the balances sum to the total supply. */
    ghost predicate Conserved()
      reads this
    {
      Sum(balances) == totalSupply
    }

    /** `new(total_supply)` called by `caller`. */
    constructor (caller: AccountId, totalSupply: Balance)
      ensures this.totalSupply == totalSupply
      ensures balances == Genesis(caller, totalSupply)
      ensures Conserved()
    {
      var initial: Balances := map[];
      initial := initial[caller := totalSupply];
      balances := initial;
      this.totalSupply := totalSupply;
      GenesisConserves(caller, totalSupply);
    }

    /** `total_supply()`: while conservation holds, the sum of all balances. */
    function TotalSupply(): (s: Balance)
      reads this
      ensures Conserved() ==> s == Sum(balances)
    {
      totalSupply
    }

    /**
     `balance_of(account)`: the stored balance, 0 for an account without an
     entry, and never more than the total supply while conservation holds.
     */
    function BalanceOf(account: AccountId): (b: Balance)
      reads this
      ensures account in balances ==> b == balances[account]
      ensures account !in balances ==> b == 0
      ensures Conserved() ==> b <= totalSupply
    {
      BalanceBounded(balances, account);
      Ledger.BalanceOf(balances, account)
    }

    /**
     `transfer(to, value)` called by `caller`. Only `balances` is written;
     a transfer between distinct accounts keeps conservation.
     */
    method Transfer(caller: AccountId, to: AccountId, value: Balance) returns (r: Outcome)
      requires CreditFits(balances, caller, to, value)
      modifies this`balances
      ensures (r, balances) == Ledger.Transfer(old(balances), caller, to, value)
      ensures totalSupply == old(totalSupply)
      ensures caller != to && old(Conserved()) ==> Conserved()
    {
      var from := caller;
      var fromBalance := BalanceOf(from);
      if fromBalance < value {
        return Err(InsufficientBalance);
      }
      var toBalance := BalanceOf(to);

      balances := balances[from := fromBalance - value];
      balances := balances[to := toBalance + value];

      r := Ok;
      if from != to {
        TransferConserves(old(balances), from, to, value);
      }
    }
  }

  /** The first two accounts of ink!'s off-chain test environment; Alice is its default caller. */
  const ALICE: AccountId := seq(32, _ => 1 as bv8)
  const BOB: AccountId := seq(32, _ => 2 as bv8)

  /** A token created with 100 units reports a total supply of 100. */
  method TotalSupplyWorks() returns (supply: Balance)
    ensures supply == 100
  {
    var token := new SimpleToken(ALICE, 100);
    supply := token.TotalSupply();
  }

  /** The creator holds the whole supply; any other account holds nothing. */
  method BalanceOfWorks() returns (alice: Balance, bob: Balance)
    ensures alice == 100 && bob == 0
  {
    var token := new SimpleToken(ALICE, 100);
    assert ALICE[0] != BOB[0];
    alice := token.BalanceOf(ALICE);
    bob := token.BalanceOf(BOB);
  }

  /** Alice sends Bob 10 of her 100 units: she keeps 90, he has 10. */
  method TransferWorks() returns (r: Outcome, alice: Balance, bob: Balance)
    ensures r == Ok && alice == 90 && bob == 10
  {
    var token := new SimpleToken(ALICE, 100);
    assert ALICE[0] != BOB[0];
    r := token.Transfer(ALICE, BOB, 10);
    alice := token.BalanceOf(ALICE);
    bob := token.BalanceOf(BOB);
  }

  /** After that, a transfer of 1000 is refused and both balances stay at 90 and 10. */
  method OverdraftRefused() returns (r: Outcome, alice: Balance, bob: Balance)
    ensures r == Err(InsufficientBalance) && alice == 90 && bob == 10
  {
    var token := new SimpleToken(ALICE, 100);
    assert ALICE[0] != BOB[0];
    var first := token.Transfer(ALICE, BOB, 10);
    r := token.Transfer(ALICE, BOB, 1000);
    alice := token.BalanceOf(ALICE);
    bob := token.BalanceOf(BOB);
  }

  /**
   Alice sends 10 of her 100 units to herself: she ends with 110 while the
   total supply stays 100, so conservation no longer holds.
   */
  method SelfTransferMints() returns (r: Outcome, alice: Balance, supply: Balance)
    ensures r == Ok && alice == 110 && supply == 100
  {
    var token := new SimpleToken(ALICE, 100);
    r := token.Transfer(ALICE, ALICE, 10);
    alice := token.BalanceOf(ALICE);
    supply := token.TotalSupply();
  }
}

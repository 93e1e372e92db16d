/**
 * How the client's local transfer checks and optimistic patch relate to the ledger's
 * own `transfer`, when the client's cached balance is or is not the ledger's.
 */
module Agreement {
  import opened Outcomes
  import opened TokenLedger
  import opened LocalChecks

  /**
   * With an accurate cache, every transfer the client lets through is one the ledger
   * accepts, and the optimistic patch is exactly the sender's new ledger balance.
   */
  lemma CheckedTransferIsAccepted(t: Token, balances: map<string, nat>, symbol: string, amount: int,
                                  sender: string, recipient: string, parse: string -> Option<string>, now: u64)
    requires Conserved(t) && t.symbol == symbol
    requires TransferCheck(balances, symbol, amount, sender, recipient, parse).Proceed?
    requires CachedBalance(balances, symbol)
             == BalanceIn(t.balances, TransferCheck(balances, symbol, amount, sender, recipient, parse).from) as int
    ensures 0 < amount < 0x1_0000_0000_0000_0000
    ensures var v := TransferCheck(balances, symbol, amount, sender, recipient, parse);
      var r := TransferEffect(t, v.to, v.from, amount as u64, now);
      && r.0
      && OptimisticDebit(balances, symbol, amount)[symbol] == BalanceIn(r.1.balances, v.from) as int
      && BalanceIn(r.1.balances, v.to) as int == BalanceIn(t.balances, v.to) as int + amount
  {
    var v := TransferCheck(balances, symbol, amount, sender, recipient, parse);
    assert v.from != v.to;
    TransferMovesAmount(t, v.to, v.from, amount as u64, now);
  }

  /**
   * With a cache that overstates the sender's balance, the client still submits, the
   * ledger refuses and changes no balance, and the client, which counts the refusal
   * as done, debits its cache anyway.
   */
  lemma OverstatedCacheIsRefused(t: Token, balances: map<string, nat>, symbol: string, amount: int,
                                 sender: string, recipient: string, parse: string -> Option<string>, now: u64)
    requires Conserved(t) && t.symbol == symbol
    requires TransferCheck(balances, symbol, amount, sender, recipient, parse).Proceed?
    requires amount < 0x1_0000_0000_0000_0000
    requires BalanceIn(t.balances, TransferCheck(balances, symbol, amount, sender, recipient, parse).from) as int < amount
    ensures var v := TransferCheck(balances, symbol, amount, sender, recipient, parse);
      var r := TransferEffect(t, v.to, v.from, amount as u64, now);
      && !r.0
      && (forall p :: BalanceIn(r.1.balances, p) == BalanceIn(t.balances, p))
      && OptimisticDebit(balances, symbol, amount)[symbol] as int == CachedBalance(balances, symbol) - amount
  {
    var v := TransferCheck(balances, symbol, amount, sender, recipient, parse);
    TransferRefusalIsUnobservable(t, v.to, v.from, amount as u64, now);
  }
}

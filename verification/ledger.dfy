/**
 * The token ledger service: a map from symbol to token, each token holding an
 * owner, a fixed total supply, a balance per principal and a transaction history
 * per principal. Updates insert a token or move an amount between two principals;
 * queries read the map.
 */
module TokenLedger {
  import opened Outcomes

  /** Rust `u64` (Candid `nat64`): an arithmetic step that leaves this range does not verify. */
  newtype u64 = x: int | 0 <= x < 0x1_0000_0000_0000_0000

  /** A principal, by its textual form. */
  type Principal = string

  /** A history record; `from` is absent for the record written at creation. */
  datatype Transaction = Transaction(from: Option<Principal>, to: Principal, amount: u64, timestamp: u64)

  datatype Token = Token(
    name: string,
    symbol: string,
    imageUrl: string,
    totalSupply: u64,
    owner: Principal,
    balances: map<Principal, u64>,
    history: map<Principal, seq<Transaction>>)

  /** A balance as the queries read it: a principal without an entry holds 0. */
  function BalanceIn(balances: map<Principal, u64>, p: Principal): u64
  {
    if p in balances then balances[p] else 0
  }

  /** A history as the queries read it: a principal without an entry has none. */
  function HistoryIn(history: map<Principal, seq<Transaction>>, p: Principal): seq<Transaction>
  {
    if p in history then history[p] else []
  }

  /** `entry(p).or_insert(0)`: adds a zero entry for `p` when it has none. */
  function Touch(balances: map<Principal, u64>, p: Principal): map<Principal, u64>
  {
    if p in balances then balances else balances[p := 0]
  }

  // ---------------------------------------------------------------------------
  // Sum of balances

  /** The sum of every balance in the map. */
  ghost function Sum(balances: map<Principal, u64>): (total: int)
    ensures total >= 0
    decreases |balances|
  {
    if balances == map[] then 0
    else
      var p :| p in balances;
      assert (balances - {p}).Keys == balances.Keys - {p};
      balances[p] as int + Sum(balances - {p})
  }

  /** The sum may be split off at any key, whichever key `Sum` itself picks. */
  lemma {:induction false} SumRemove(m: map<Principal, u64>, p: Principal)
    requires p in m
    ensures Sum(m) == m[p] as int + Sum(m - {p})
    decreases |m|
  {
    var q :| q in m && Sum(m) == m[q] as int + Sum(m - {q});
    if q != p {
      assert (m - {q}).Keys == m.Keys - {q};
      assert (m - {p}).Keys == m.Keys - {p};
      SumRemove(m - {q}, p);
      SumRemove(m - {p}, q);
      assert (m - {q}) - {p} == (m - {p}) - {q};
    }
  }

  /** Overwriting one balance changes the sum by the difference. */
  lemma SumUpdate(m: map<Principal, u64>, p: Principal, v: u64)
    ensures Sum(m[p := v]) == Sum(m) - BalanceIn(m, p) as int + v as int
  {
    SumRemove(m[p := v], p);
    if p in m {
      SumRemove(m, p);
      assert m[p := v] - {p} == m - {p};
    } else {
      assert m[p := v] - {p} == m;
    }
  }

  /** No single balance exceeds the sum. */
  lemma BalanceBelowSum(m: map<Principal, u64>, p: Principal)
    ensures BalanceIn(m, p) as int <= Sum(m)
  {
    if p in m {
      SumRemove(m, p);
    }
  }

  // ---------------------------------------------------------------------------
  // Token invariants

  /** Conservation: the balances add up to the total supply. */
  ghost predicate Conserved(t: Token)
  {
    Sum(t.balances) == t.totalSupply as int
  }

  /** Every record in a principal's history names that principal as sender or receiver. */
  ghost predicate HistoriesInvolveHolder(history: map<Principal, seq<Transaction>>)
  {
    forall p, i :: p in history && 0 <= i < |history[p]| ==>
      history[p][i].to == p || history[p][i].from == Some(p)
  }

  ghost predicate WellFormed(t: Token)
  {
    Conserved(t) && HistoriesInvolveHolder(t.history)
  }

  // ---------------------------------------------------------------------------
  // create_token

  /** The token `create_token` builds: the whole supply held by the owner, with one mint record. */
  function Minted(owner: Principal, name: string, symbol: string, imageUrl: string, supply: u64, now: u64): (t: Token)
    ensures WellFormed(t)
    ensures t.name == name && t.symbol == symbol && t.imageUrl == imageUrl
    ensures t.owner == owner && t.totalSupply == supply
    ensures BalanceIn(t.balances, owner) == supply
    ensures forall p :: p != owner ==> BalanceIn(t.balances, p) == 0
    ensures HistoryIn(t.history, owner) == [Transaction(None, owner, supply, now)]
    ensures forall p :: p != owner ==> HistoryIn(t.history, p) == []
  {
    SumUpdate(map[], owner, supply);
    Token(name, symbol, imageUrl, supply, owner,
          map[owner := supply],
          map[owner := [Transaction(None, owner, supply, now)]])
  }

  // ---------------------------------------------------------------------------
  // transfer

  /**
   * Once the sender holds at least `amount`, the receiver's credit stays within u64:
   * after the debit the receiver holds at most `totalSupply - amount`.
   */
  lemma ReceiverCannotOverflow(t: Token, from: Principal, to: Principal, amount: u64)
    requires Conserved(t)
    requires BalanceIn(t.balances, from) >= amount
    ensures var debited := Touch(t.balances, from)[from := BalanceIn(t.balances, from) - amount];
            && Sum(debited) == t.totalSupply as int - amount as int
            && BalanceIn(debited, to) as int + amount as int <= t.totalSupply as int
  {
    var debited := Touch(t.balances, from)[from := BalanceIn(t.balances, from) - amount];
    assert debited == t.balances[from := BalanceIn(t.balances, from) - amount];
    SumUpdate(t.balances, from, BalanceIn(t.balances, from) - amount);
    BalanceBelowSum(debited, to);
  }

  /**
   * What `transfer` does to the token it finds: the success flag and the new token.
   * A rejected transfer still leaves the sender's `or_insert(0)` entry behind.
   */
  function TransferEffect(t: Token, to: Principal, from: Principal, amount: u64, now: u64): (r: (bool, Token))
    requires Conserved(t)
    ensures r.0 <==> BalanceIn(t.balances, from) >= amount
    ensures r.1.name == t.name && r.1.symbol == t.symbol && r.1.imageUrl == t.imageUrl
    ensures r.1.owner == t.owner && r.1.totalSupply == t.totalSupply
  {
    var held := Touch(t.balances, from);
    if held[from] < amount then
      (false, t.(balances := held))
    else
      ReceiverCannotOverflow(t, from, to, amount);
      var debited := held[from := held[from] - amount];
      var credited := Touch(debited, to);
      var tx := Transaction(Some(from), to, amount, now);
      var logged := t.history[from := HistoryIn(t.history, from) + [tx]];
      (true, t.(balances := credited[to := credited[to] + amount],
                history := logged[to := HistoryIn(logged, to) + [tx]]))
  }

  /** A rejected transfer changes nothing that a query can observe. */
  lemma TransferRefusalIsUnobservable(t: Token, to: Principal, from: Principal, amount: u64, now: u64)
    requires Conserved(t)
    requires BalanceIn(t.balances, from) < amount
    ensures var r := TransferEffect(t, to, from, amount, now);
      && r.1.history == t.history
      && forall p :: BalanceIn(r.1.balances, p) == BalanceIn(t.balances, p)
  {
  }

  /**
   * An accepted transfer between two principals moves exactly `amount` from one to
   * the other; to oneself it moves nothing; nobody else's balance changes.
   */
  lemma TransferMovesAmount(t: Token, to: Principal, from: Principal, amount: u64, now: u64)
    requires Conserved(t)
    requires BalanceIn(t.balances, from) >= amount
    ensures var r := TransferEffect(t, to, from, amount, now);
      && (from != to ==>
            && BalanceIn(r.1.balances, from) as int == BalanceIn(t.balances, from) as int - amount as int
            && BalanceIn(r.1.balances, to) as int == BalanceIn(t.balances, to) as int + amount as int)
      && (from == to ==> forall p :: BalanceIn(r.1.balances, p) == BalanceIn(t.balances, p))
      && (forall p :: p != from && p != to ==> BalanceIn(r.1.balances, p) == BalanceIn(t.balances, p))
  {
  }

  /**
   * An accepted transfer appends the same record to the sender's and the receiver's
   * history (twice to the one history of a self-transfer); no other history changes.
   */
  lemma TransferLogsRecord(t: Token, to: Principal, from: Principal, amount: u64, now: u64)
    requires Conserved(t)
    requires BalanceIn(t.balances, from) >= amount
    ensures var r := TransferEffect(t, to, from, amount, now);
      var tx := Transaction(Some(from), to, amount, now);
      && (from != to ==> HistoryIn(r.1.history, from) == HistoryIn(t.history, from) + [tx])
      && (from != to ==> HistoryIn(r.1.history, to) == HistoryIn(t.history, to) + [tx])
      && (from == to ==> HistoryIn(r.1.history, from) == HistoryIn(t.history, from) + [tx, tx])
      && (forall p :: p != from && p != to ==> HistoryIn(r.1.history, p) == HistoryIn(t.history, p))
  {
    if from == to {
      var tx := Transaction(Some(from), to, amount, now);
      assert HistoryIn(t.history, from) + [tx] + [tx] == HistoryIn(t.history, from) + [tx, tx];
    }
  }

  /** `or_insert(0)` stores the balance the key already reads as. */
  lemma TouchKeepsBalance(m: map<Principal, u64>, p: Principal)
    ensures Touch(m, p) == m[p := BalanceIn(m, p)]
  {
  }

  /** The balance map an accepted transfer leaves, written as two overwrites. */
  lemma AcceptedBalances(t: Token, to: Principal, from: Principal, amount: u64, now: u64)
    requires Conserved(t)
    requires BalanceIn(t.balances, from) >= amount
    ensures var debited := t.balances[from := BalanceIn(t.balances, from) - amount];
      && BalanceIn(debited, to) as int + amount as int <= t.totalSupply as int
      && TransferEffect(t, to, from, amount, now).1.balances
         == debited[to := BalanceIn(debited, to) + amount]
  {
    var bal := BalanceIn(t.balances, from);
    ReceiverCannotOverflow(t, from, to, amount);
    var debited := t.balances[from := bal - amount];
    TouchKeepsBalance(t.balances, from);
    assert Touch(t.balances, from)[from := bal - amount] == debited;
    TouchKeepsBalance(debited, to);
  }

  /** A transfer keeps the balances summing to the total supply. */
  lemma TransferConserves(t: Token, to: Principal, from: Principal, amount: u64, now: u64)
    requires Conserved(t)
    ensures Conserved(TransferEffect(t, to, from, amount, now).1)
  {
    var bal := BalanceIn(t.balances, from);
    if bal < amount {
      TouchKeepsBalance(t.balances, from);
      SumUpdate(t.balances, from, bal);
    } else {
      AcceptedBalances(t, to, from, amount, now);
      var debited := t.balances[from := bal - amount];
      SumUpdate(t.balances, from, bal - amount);
      SumUpdate(debited, to, BalanceIn(debited, to) + amount);
    }
  }

  /** A transfer only appends records that name the history's holder. */
  lemma TransferKeepsHistoriesAboutHolder(t: Token, to: Principal, from: Principal, amount: u64, now: u64)
    requires Conserved(t) && HistoriesInvolveHolder(t.history)
    ensures HistoriesInvolveHolder(TransferEffect(t, to, from, amount, now).1.history)
  {
    var h: map<Principal, seq<Transaction>> := TransferEffect(t, to, from, amount, now).1.history;
    var tx := Transaction(Some(from), to, amount, now);
    if BalanceIn(t.balances, from) >= amount {
      forall p: Principal, i: int | p in h && 0 <= i < |h[p]|
        ensures h[p][i].to == p || h[p][i].from == Some(p)
      {
        if p != from && p != to {
          assert h[p] == t.history[p];
        } else if i >= |HistoryIn(t.history, p)| {
          assert h[p][i] == tx;
        } else {
          assert h[p][i] == t.history[p][i];
        }
      }
    }
  }

  lemma TransferKeepsWellFormed(t: Token, to: Principal, from: Principal, amount: u64, now: u64)
    requires WellFormed(t)
    ensures WellFormed(TransferEffect(t, to, from, amount, now).1)
  {
    TransferConserves(t, to, from, amount, now);
    TransferKeepsHistoriesAboutHolder(t, to, from, amount, now);
  }

  /**
   * The body of `transfer` once the token is found: `or_insert(0)` for the sender, the
   * refusal, the debit, `or_insert(0)` and credit for the receiver, then both logs.
   */
  method TransferOn(token: Token, to: Principal, from: Principal, amount: u64, now: u64)
    returns (ok: bool, after: Token)
    requires Conserved(token)
    ensures (ok, after) == TransferEffect(token, to, from, amount, now)
  {
    var sender := from;
    var balances := token.balances;
    if sender !in balances {
      balances := balances[sender := 0];
    }
    assert balances == Touch(token.balances, sender);
    if balances[sender] < amount {
      return false, token.(balances := balances);
    }
    ReceiverCannotOverflow(token, sender, to, amount);
    balances := balances[sender := balances[sender] - amount];
    ghost var debited := balances;
    if to !in balances {
      balances := balances[to := 0];
    }
    assert balances == Touch(debited, to);
    balances := balances[to := balances[to] + amount];
    var tx := Transaction(Some(sender), to, amount, now);
    var history := token.history;
    history := history[sender := HistoryIn(history, sender) + [tx]];
    history := history[to := HistoryIn(history, to) + [tx]];
    return true, token.(balances := balances, history := history);
  }

  // ---------------------------------------------------------------------------
  // get_token_list

  /** The `(name, symbol, image_url)` triple listed for a token. */
  function Entry(t: Token): (string, string, string)
  {
    (t.name, t.symbol, t.imageUrl)
  }

  function Listing(tokens: map<string, Token>): set<(string, string, string)>
  {
    set s | s in tokens :: Entry(tokens[s])
  }

  /** When every token is stored under its own symbol, the listing has one entry per token. */
  lemma {:induction false} ListingHasOneEntryPerToken(tokens: map<string, Token>)
    requires forall s :: s in tokens ==> tokens[s].symbol == s
    ensures |Listing(tokens)| == |tokens|
    decreases |tokens|
  {
    if tokens != map[] {
      var k :| k in tokens;
      var rest := tokens - {k};
      assert rest.Keys == tokens.Keys - {k};
      ListingHasOneEntryPerToken(rest);
      forall e | e in Listing(tokens) ensures e in Listing(rest) + {Entry(tokens[k])} {
        var s :| s in tokens && e == Entry(tokens[s]);
        if s != k { assert s in rest; }
      }
      forall e | e in Listing(rest) + {Entry(tokens[k])} ensures e in Listing(tokens) {
        if e != Entry(tokens[k]) {
          var s :| s in rest && e == Entry(rest[s]);
          assert s in tokens;
        }
      }
      assert Listing(tokens) == Listing(rest) + {Entry(tokens[k])};
      assert Entry(tokens[k]) !in Listing(rest);
    }
  }

  // ---------------------------------------------------------------------------
  // The service state

  /** The service's `TOKENS` map, initialised by `init`. */
  class Ledger {
    var tokens: map<string, Token>

    ghost predicate Valid()
      reads this
    {
      forall s :: s in tokens ==> tokens[s].symbol == s && WellFormed(tokens[s])
    }

    /** `init`: the map starts empty. */
    constructor ()
      ensures Valid() && tokens == map[]
    {
      tokens := map[];
    }

    /** `create_token`: inserts, or replaces wholesale, the token under `symbol`. */
    method CreateToken(tokenOwner: Principal, name: string, symbol: string, imageUrl: string,
                       totalSupply: u64, now: u64) returns (ok: bool)
      requires Valid()
      modifies this
      ensures Valid() && ok
      ensures tokens == old(tokens)[symbol := Minted(tokenOwner, name, symbol, imageUrl, totalSupply, now)]
      ensures BalanceOf(symbol, tokenOwner) == totalSupply
      ensures forall p :: p != tokenOwner ==> BalanceOf(symbol, p) == 0
      ensures GetTransactions(symbol, tokenOwner) == [Transaction(None, tokenOwner, totalSupply, now)]
      ensures TotalSupply(symbol) == totalSupply
    {
      var balances := map[];
      balances := balances[tokenOwner := totalSupply];
      var txs := map[];
      txs := txs[tokenOwner := [Transaction(None, tokenOwner, totalSupply, now)]];
      var token := Token(name, symbol, imageUrl, totalSupply, tokenOwner, balances, txs);
      assert token == Minted(tokenOwner, name, symbol, imageUrl, totalSupply, now);
      tokens := tokens[symbol := token];
      ok := true;
    }

    /**
     * `transfer`: moves `amount` from `from` to `to` when `from` holds enough.
     * There is no check of who asks: `from` is just an argument.
     */
    method Transfer(symbol: string, to: Principal, from: Principal, amount: u64, now: u64) returns (ok: bool)
      requires Valid()
      modifies this
      ensures Valid()
      ensures symbol !in old(tokens) ==> !ok && tokens == old(tokens)
      ensures symbol in old(tokens) ==>
        && symbol in tokens
        && (ok, tokens[symbol]) == TransferEffect(old(tokens)[symbol], to, from, amount, now)
        && tokens == old(tokens)[symbol := tokens[symbol]]
    {
      if symbol in tokens {
        var token := tokens[symbol];
        var after;
        ok, after := TransferOn(token, to, from, amount, now);
        TransferKeepsWellFormed(token, to, from, amount, now);
        tokens := tokens[symbol := after];
        return;
      }
      return false;
    }

    /** `balance_of`: 0 for an unknown symbol or principal; never above the supply. */
    function BalanceOf(symbol: string, user: Principal): (r: u64)
      reads this
      ensures symbol !in tokens ==> r == 0
      ensures symbol in tokens && user !in tokens[symbol].balances ==> r == 0
      ensures Valid() && symbol in tokens ==> r <= tokens[symbol].totalSupply
    {
      if symbol in tokens then
        BalanceBelowSum(tokens[symbol].balances, user);
        BalanceIn(tokens[symbol].balances, user)
      else 0
    }

    /** `total_supply`: 0 for an unknown symbol; otherwise the sum of that token's balances. */
    function TotalSupply(symbol: string): (r: u64)
      reads this
      ensures symbol !in tokens ==> r == 0
      ensures Valid() && symbol in tokens ==> r as int == Sum(tokens[symbol].balances)
    {
      if symbol in tokens then tokens[symbol].totalSupply else 0
    }

    /** `get_token_list`: one `(name, symbol, image_url)` per stored token, in no particular order. */
    function GetTokenList(): (r: set<(string, string, string)>)
      reads this
      ensures forall s :: s in tokens ==> (tokens[s].name, tokens[s].symbol, tokens[s].imageUrl) in r
      ensures forall e :: e in r ==> exists s :: s in tokens && e == Entry(tokens[s])
      ensures Valid() ==> |r| == |tokens|
      ensures Valid() ==> forall e :: e in r ==> e.1 in tokens
    {
      if forall s :: s in tokens ==> tokens[s].symbol == s then
        ListingHasOneEntryPerToken(tokens);
        Listing(tokens)
      else
        Listing(tokens)
    }

    /** `get_transactions`: empty for an unknown symbol or principal; each record involves `user`. */
    function GetTransactions(symbol: string, user: Principal): (r: seq<Transaction>)
      reads this
      ensures symbol !in tokens ==> r == []
      ensures symbol in tokens && user !in tokens[symbol].history ==> r == []
      ensures Valid() ==> forall i :: 0 <= i < |r| ==> r[i].to == user || r[i].from == Some(user)
    {
      if symbol in tokens then HistoryIn(tokens[symbol].history, user) else []
    }
  }

  /** The client's mint: a self-transfer moves no balance and logs the record twice to one history. */
  lemma SelfTransferMovesNothing(t: Token, p: Principal, amount: u64, now: u64)
    requires WellFormed(t)
    requires BalanceIn(t.balances, p) >= amount
    ensures var r := TransferEffect(t, p, p, amount, now);
      && r.0
      && (forall q :: BalanceIn(r.1.balances, q) == BalanceIn(t.balances, q))
      && HistoryIn(r.1.history, p) == HistoryIn(t.history, p) + [Transaction(Some(p), p, amount, now)] + [Transaction(Some(p), p, amount, now)]
      && WellFormed(r.1)
  {
    TransferMovesAmount(t, p, p, amount, now);
    TransferLogsRecord(t, p, p, amount, now);
    TransferKeepsWellFormed(t, p, p, amount, now);
  }
}

/**
 * The client's refresh computations: the per-item loops of `loadTokens`,
 * `loadBalances`/`forceLoadBalances` and `loadTransactions`, and the newest-first
 * ordering of the transaction list. Each remote lookup is a function from symbol to
 * the wrapped answer; a failed item degrades to 0 or to nothing, never aborting
 * its siblings.
 */
module Refreshers {
  import opened Outcomes
  import opened ClientData

  // ---------------------------------------------------------------------------
  // Token refresh

  /** `r` lists `list` in order, each with `id = symbol` and its supply, 0 where that lookup failed. */
  ghost predicate ListedWithSupply(r: seq<CachedToken>, list: seq<TokenInfo>, supplyOf: string -> Remote<nat>)
  {
    && |r| == |list|
    && forall i :: 0 <= i < |r| ==>
         && r[i].name == list[i].name
         && r[i].symbol == list[i].symbol
         && r[i].imageUrl == list[i].imageUrl
         && r[i].id == list[i].symbol
         && r[i].totalSupply == OrZero(supplyOf(list[i].symbol))
  }

  /** The supply loop of `loadTokens`: one lookup per listed token, in list order. */
  method FetchSupplies(list: seq<TokenInfo>, supplyOf: string -> Remote<nat>) returns (r: seq<CachedToken>)
    ensures ListedWithSupply(r, list, supplyOf)
  {
    r := [];
    for i := 0 to |list|
      invariant ListedWithSupply(r, list[..i], supplyOf)
    {
      var token := list[i];
      var supplyResult := supplyOf(token.symbol);
      if supplyResult.Ok? {
        r := r + [CachedToken(token.name, token.symbol, token.imageUrl, token.symbol, supplyResult.value)];
      } else {
        r := r + [CachedToken(token.name, token.symbol, token.imageUrl, token.symbol, 0)];
      }
    }
  }

  // ---------------------------------------------------------------------------
  // Balance refresh

  /** `m` has exactly one key per symbol of `tokens`, holding the fetched balance or 0. */
  ghost predicate FreshBalances(m: map<string, nat>, tokens: seq<CachedToken>, balanceOf: string -> Remote<nat>)
  {
    && m.Keys == Symbols(tokens)
    && forall s :: s in m ==> m[s] == OrZero(balanceOf(s))
  }

  /** The balance loop of `loadBalances`: a new map, one lookup per token. */
  method FetchBalances(tokens: seq<CachedToken>, balanceOf: string -> Remote<nat>) returns (m: map<string, nat>)
    ensures FreshBalances(m, tokens, balanceOf)
  {
    m := map[];
    for i := 0 to |tokens|
      invariant FreshBalances(m, tokens[..i], balanceOf)
    {
      assert tokens[..i + 1] == tokens[..i] + [tokens[i]];
      var result := balanceOf(tokens[i].symbol);
      if result.Ok? {
        m := m[tokens[i].symbol := result.value];
      } else {
        m := m[tokens[i].symbol := 0];
      }
    }
    assert tokens[..|tokens|] == tokens;
  }

  /** The key set `forceLoadBalances` produces: the token symbols plus a pending new symbol. */
  function WithPending(symbols: set<string>, pending: string): set<string>
  {
    if pending == "" then symbols else symbols + {pending}
  }

  /**
   * `forceLoadBalances`: the balance loop, then one more lookup for the symbol of the
   * token just created when the map has no non-zero entry for it yet.
   */
  method ForceFetchBalances(tokens: seq<CachedToken>, pending: string, balanceOf: string -> Remote<nat>)
    returns (m: map<string, nat>)
    ensures m.Keys == WithPending(Symbols(tokens), pending)
    ensures forall s :: s in m ==> m[s] == OrZero(balanceOf(s))
  {
    m := FetchBalances(tokens, balanceOf);
    if pending != "" && (pending !in m || m[pending] == 0) {
      var result := balanceOf(pending);
      if result.Ok? {
        m := m[pending := result.value];
      } else {
        m := m[pending := 0];
      }
    }
  }

  // ---------------------------------------------------------------------------
  // Transaction refresh

  /**
   * The client's record for one ledger record of token `symbol`. The agent decodes the
   * Candid `opt principal` sender as an array, `[]` or `[p]`; both are truthy, so the
   * `"Unknown"` fallback is never taken, and `principalToString` turns `[p]` into `p`'s
   * text and `[]` into the empty string.
   */
  function View(raw: RawTransaction, symbol: string): (v: TxView)
    ensures v.kind == TransferKind && v.symbol == symbol
    ensures v.to == raw.to && v.amount == raw.amount && v.timestamp == raw.timestamp
    ensures raw.from.Some? ==> v.from == raw.from.value
    ensures raw.from.None? ==> v.from == ""
    ensures v.from == UnknownSender ==> raw.from == Some(UnknownSender)
  {
    TxView(TransferKind, if raw.from.Some? then raw.from.value else "",
           raw.to, raw.amount, raw.timestamp, symbol)
  }

  /** What one token's lookup contributes: its records in ledger order, or nothing if it failed. */
  function Part(reply: Remote<seq<RawTransaction>>, symbol: string): (r: seq<TxView>)
  {
    if reply.Ok? then seq(|reply.value|, i requires 0 <= i < |reply.value| => View(reply.value[i], symbol))
    else []
  }

  /** The parts of all tokens, concatenated in token order. */
  function Concatenated(tokens: seq<CachedToken>, transactionsOf: string -> Remote<seq<RawTransaction>>): seq<TxView>
  {
    if tokens == [] then []
    else
      var last := tokens[|tokens| - 1];
      Concatenated(tokens[..|tokens| - 1], transactionsOf) + Part(transactionsOf(last.symbol), last.symbol)
  }

  /** The "all tokens" loop of `loadTransactions` (`allTransactions.push(...)`). */
  method CollectTransactions(tokens: seq<CachedToken>, transactionsOf: string -> Remote<seq<RawTransaction>>)
    returns (all: seq<TxView>)
    ensures all == Concatenated(tokens, transactionsOf)
  {
    all := [];
    for i := 0 to |tokens|
      invariant all == Concatenated(tokens[..i], transactionsOf)
    {
      assert tokens[..i + 1][..i] == tokens[..i];
      var result := transactionsOf(tokens[i].symbol);
      if result.Ok? {
        var tokenTransactions := seq(|result.value|, j requires 0 <= j < |result.value| => View(result.value[j], tokens[i].symbol));
        all := all + tokenTransactions;
      }
    }
    assert tokens[..|tokens|] == tokens;
  }

  /** Concatenation over a split token list is the concatenation of the two halves. */
  lemma {:induction false} ConcatenatedSplits(a: seq<CachedToken>, b: seq<CachedToken>,
                                              transactionsOf: string -> Remote<seq<RawTransaction>>)
    ensures Concatenated(a + b, transactionsOf) == Concatenated(a, transactionsOf) + Concatenated(b, transactionsOf)
    decreases |b|
  {
    if b != [] {
      var init := b[..|b| - 1];
      assert (a + b)[..|a + b| - 1] == a + init;
      ConcatenatedSplits(a, init, transactionsOf);
    } else {
      assert a + b == a;
    }
  }

  /** A single token whose lookup failed gathers nothing. */
  lemma FailedTokenAlone(t: CachedToken, transactionsOf: string -> Remote<seq<RawTransaction>>)
    requires transactionsOf(t.symbol).Err?
    ensures Concatenated([t], transactionsOf) == []
  {
    assert [t][..0] == [];
  }

  /** A token whose lookup failed contributes nothing, and the others keep their order. */
  lemma {:induction false} FailedTokenContributesNothing(tokens: seq<CachedToken>, i: nat,
                                      transactionsOf: string -> Remote<seq<RawTransaction>>)
    requires i < |tokens| && transactionsOf(tokens[i].symbol).Err?
    ensures Concatenated(tokens, transactionsOf)
         == Concatenated(tokens[..i], transactionsOf) + Concatenated(tokens[i + 1..], transactionsOf)
  {
    var pre, mid, post := tokens[..i], [tokens[i]], tokens[i + 1..];
    assert tokens == pre + (mid + post);
    ConcatenatedSplits(pre, mid + post, transactionsOf);
    ConcatenatedSplits(mid, post, transactionsOf);
    FailedTokenAlone(tokens[i], transactionsOf);
    assert [] + Concatenated(post, transactionsOf) == Concatenated(post, transactionsOf);
  }

  /** Every listed record is a "transfer" of a token of the list whose lookup succeeded. */
  lemma {:induction false} ConcatenatedRecordsComeFromSucceededTokens(tokens: seq<CachedToken>,
                                      transactionsOf: string -> Remote<seq<RawTransaction>>)
    ensures forall v :: v in Concatenated(tokens, transactionsOf) ==>
      && v.kind == TransferKind
      && exists k :: 0 <= k < |tokens| && tokens[k].symbol == v.symbol && transactionsOf(tokens[k].symbol).Ok?
    decreases |tokens|
  {
    if tokens != [] {
      var n := |tokens| - 1;
      var init := tokens[..n];
      ConcatenatedRecordsComeFromSucceededTokens(init, transactionsOf);
      forall v | v in Concatenated(tokens, transactionsOf)
        ensures v.kind == TransferKind
        ensures exists k :: 0 <= k < |tokens| && tokens[k].symbol == v.symbol && transactionsOf(tokens[k].symbol).Ok?
      {
        if v in Concatenated(init, transactionsOf) {
          var k :| 0 <= k < |init| && init[k].symbol == v.symbol && transactionsOf(init[k].symbol).Ok?;
          assert tokens[k] == init[k];
        } else {
          var part := Part(transactionsOf(tokens[n].symbol), tokens[n].symbol);
          assert v in part;
          var j :| 0 <= j < |part| && part[j] == v;
          assert tokens[n].symbol == v.symbol;
        }
      }
    }
  }

  // ---------------------------------------------------------------------------
  // Newest-first ordering: `allTransactions.sort((a, b) => b.timestamp - a.timestamp)`,
  // a stable sort

  predicate NewestFirst(s: seq<TxView>)
  {
    forall i, j :: 0 <= i < j < |s| ==> s[i].timestamp >= s[j].timestamp
  }

  /** Places `x` before the first record that is not newer than it. */
  function InsertNewestFirst(x: TxView, s: seq<TxView>): (r: seq<TxView>)
    ensures |r| == |s| + 1
    ensures r[0] == x || (s != [] && r[0] == s[0])
    decreases |s|
  {
    if s == [] || x.timestamp >= s[0].timestamp then [x] + s
    else [s[0]] + InsertNewestFirst(x, s[1..])
  }

  /** Insertion into a newest-first list keeps it newest-first. */
  lemma {:induction false} InsertKeepsNewestFirst(x: TxView, s: seq<TxView>)
    requires NewestFirst(s)
    ensures NewestFirst(InsertNewestFirst(x, s))
    decreases |s|
  {
    if s != [] && x.timestamp < s[0].timestamp {
      var rest := InsertNewestFirst(x, s[1..]);
      InsertKeepsNewestFirst(x, s[1..]);
      assert rest[0].timestamp <= s[0].timestamp;
      assert InsertNewestFirst(x, s) == [s[0]] + rest;
    }
  }

  /** Insertion adds exactly the one record. */
  lemma {:induction false} InsertAddsOne(x: TxView, s: seq<TxView>)
    ensures multiset(InsertNewestFirst(x, s)) == multiset(s) + multiset{x}
    decreases |s|
  {
    if s != [] && x.timestamp < s[0].timestamp {
      InsertAddsOne(x, s[1..]);
      assert s == [s[0]] + s[1..];
    }
  }

  /** Insertion sort by non-increasing timestamp. */
  function SortNewestFirst(s: seq<TxView>): (r: seq<TxView>)
    ensures |r| == |s|
  {
    if s == [] then [] else InsertNewestFirst(s[0], SortNewestFirst(s[1..]))
  }

  /** The sorted list is newest first. */
  lemma {:induction false} SortIsNewestFirst(s: seq<TxView>)
    ensures NewestFirst(SortNewestFirst(s))
  {
    if s != [] {
      SortIsNewestFirst(s[1..]);
      InsertKeepsNewestFirst(s[0], SortNewestFirst(s[1..]));
    }
  }

  /** The sorted list is a permutation of its input. */
  lemma {:induction false} SortPermutes(s: seq<TxView>)
    ensures multiset(SortNewestFirst(s)) == multiset(s)
  {
    if s != [] {
      SortPermutes(s[1..]);
      InsertAddsOne(s[0], SortNewestFirst(s[1..]));
      assert s == [s[0]] + s[1..];
    }
  }

  /** The records of `s` with timestamp `t`, in their order in `s`. */
  function WithTimestamp(s: seq<TxView>, t: nat): seq<TxView>
  {
    if s == [] then []
    else (if s[0].timestamp == t then [s[0]] else []) + WithTimestamp(s[1..], t)
  }

  /** Filtering by timestamp looks at the first record, then at the rest. */
  lemma WithTimestampCons(x: TxView, s: seq<TxView>, t: nat)
    ensures WithTimestamp([x] + s, t) == WithTimestamp([x], t) + WithTimestamp(s, t)
  {
    assert ([x] + s)[1..] == s;
    assert [x][1..] == [];
  }

  /** Insertion puts the new record ahead of the records with its timestamp. */
  lemma {:induction false} InsertKeepsTies(x: TxView, s: seq<TxView>, t: nat)
    ensures WithTimestamp(InsertNewestFirst(x, s), t) == WithTimestamp([x], t) + WithTimestamp(s, t)
    decreases |s|
  {
    if s != [] && x.timestamp < s[0].timestamp {
      var rest := InsertNewestFirst(x, s[1..]);
      assert InsertNewestFirst(x, s) == [s[0]] + rest;
      InsertKeepsTies(x, s[1..], t);
      WithTimestampCons(s[0], rest, t);
      assert s == [s[0]] + s[1..];
      WithTimestampCons(s[0], s[1..], t);
    } else {
      WithTimestampCons(x, s, t);
    }
  }

  /** Stability: records with equal timestamps keep their relative order. */
  lemma {:induction false} SortKeepsTies(s: seq<TxView>, t: nat)
    ensures WithTimestamp(SortNewestFirst(s), t) == WithTimestamp(s, t)
    decreases |s|
  {
    if s != [] {
      var sorted := SortNewestFirst(s[1..]);
      SortKeepsTies(s[1..], t);
      InsertKeepsTies(s[0], sorted, t);
      assert WithTimestamp(sorted, t) == WithTimestamp(s[1..], t);
      assert [s[0]][1..] == [];
      assert WithTimestamp([s[0]], t) == if s[0].timestamp == t then [s[0]] else [];
      assert WithTimestamp(s, t) == WithTimestamp([s[0]], t) + WithTimestamp(s[1..], t);
    }
  }
}

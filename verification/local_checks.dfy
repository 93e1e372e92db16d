/**
 * The client's local decisions, free of state: the pre-flight checks of a transfer
 * form, the optimistic balance patch after an accepted transfer, the per-symbol
 * reconciliation, and the 24-hour rule for the cached token list.
 */
module LocalChecks {
  import opened Outcomes
  import opened ClientData

  // ---------------------------------------------------------------------------
  // Principals as text

  /**
   * `stringToPrincipal`: an empty string is `null` without parsing; any other text is
   * handed to the principal parser, whose answer is its canonical text or nothing.
   */
  function ParsePrincipal(parse: string -> Option<string>, text: string): (r: Option<string>)
    ensures text == "" ==> r.None?
    ensures text != "" ==> r == parse(text)
  {
    if text == "" then None else parse(text)
  }

  /** `balances[symbol] || 0`: an absent entry reads as 0. */
  function CachedBalance(balances: map<string, nat>, symbol: string): (r: nat)
    ensures symbol in balances ==> r == balances[symbol]
    ensures symbol !in balances ==> r == 0
  {
    if symbol in balances then balances[symbol] else 0
  }

  // ---------------------------------------------------------------------------
  // Transfer form checks

  /** Why the client refuses a transfer form before calling the ledger. */
  datatype Rejection =
    | InsufficientBalance(have: nat)
    | NonPositiveAmount
    | InvalidRecipient
    | SenderUnreadable   // `fromPrincipal.toText()` on `null` throws and is caught
    | SelfTransfer

  datatype Verdict = Reject(why: Rejection) | Proceed(from: string, to: string)

  /**
   * The checks of `handleTransfer`, in source order: cached balance against the
   * parsed amount, positivity, the recipient's parse, the sender's parse (a failed
   * sender parse surfaces as an exception), and inequality of the two principals.
   */
  function TransferCheck(balances: map<string, nat>, symbol: string, amount: int,
                         sender: string, recipient: string, parse: string -> Option<string>): (v: Verdict)
    ensures v == Reject(InsufficientBalance(CachedBalance(balances, symbol)))
            <==> CachedBalance(balances, symbol) < amount
    ensures v == Reject(NonPositiveAmount) <==> CachedBalance(balances, symbol) >= amount && amount <= 0
    ensures v.Proceed? <==>
            && 0 < amount <= CachedBalance(balances, symbol)
            && ParsePrincipal(parse, recipient).Some?
            && ParsePrincipal(parse, sender).Some?
            && ParsePrincipal(parse, sender) != ParsePrincipal(parse, recipient)
    ensures v.Proceed? ==> Some(v.from) == ParsePrincipal(parse, sender) && Some(v.to) == ParsePrincipal(parse, recipient)
    ensures v == Reject(InvalidRecipient) <==>
            0 < amount <= CachedBalance(balances, symbol) && ParsePrincipal(parse, recipient).None?
    ensures v == Reject(SenderUnreadable) <==>
            && 0 < amount <= CachedBalance(balances, symbol)
            && ParsePrincipal(parse, recipient).Some? && ParsePrincipal(parse, sender).None?
    ensures v == Reject(SelfTransfer) <==>
            && 0 < amount <= CachedBalance(balances, symbol)
            && ParsePrincipal(parse, recipient).Some? && ParsePrincipal(parse, sender).Some?
            && ParsePrincipal(parse, sender) == ParsePrincipal(parse, recipient)
  {
    var have := CachedBalance(balances, symbol);
    if have < amount then Reject(InsufficientBalance(have))
    else if amount <= 0 then Reject(NonPositiveAmount)
    else
      var to := ParsePrincipal(parse, recipient);
      var from := ParsePrincipal(parse, sender);
      if to.None? then Reject(InvalidRecipient)
      else if from.None? then Reject(SenderUnreadable)
      else if from.value == to.value then Reject(SelfTransfer)
      else Proceed(from.value, to.value)
  }

  // ---------------------------------------------------------------------------
  // Balance patches

  /**
   * The optimistic patch after an accepted transfer: the symbol's entry becomes
   * `max(0, cached - amount)`, created if it was absent; nothing else changes.
   */
  function OptimisticDebit(balances: map<string, nat>, symbol: string, amount: int): (r: map<string, nat>)
    ensures r.Keys == balances.Keys + {symbol}
    ensures r[symbol] as int == if CachedBalance(balances, symbol) >= amount
                                then CachedBalance(balances, symbol) - amount else 0
    ensures forall s :: s in balances && s != symbol ==> r[s] == balances[s]
  {
    var have := CachedBalance(balances, symbol);
    balances[symbol := if have >= amount then have - amount else 0]
  }

  /** A per-symbol refresh: a successful lookup overwrites that entry only; a failed one changes nothing. */
  function Reconciled(balances: map<string, nat>, symbol: string, reply: Remote<nat>): (r: map<string, nat>)
    ensures reply.Err? ==> r == balances
    ensures reply.Ok? ==> r.Keys == balances.Keys + {symbol} && r[symbol] == reply.value
    ensures forall s :: s in balances && s != symbol ==> r[s] == balances[s]
  {
    if reply.Ok? then balances[symbol := reply.value] else balances
  }

  /**
   * Re-reading one symbol from the ledger state a full reload came from agrees with
   * that reload: every entry is still the fetched value (or 0), and a successful
   * re-read can only add its own key.
   */
  lemma ReconcileAgreesWithReload(m: map<string, nat>, symbol: string, balanceOf: string -> Remote<nat>)
    requires forall s :: s in m ==> m[s] == OrZero(balanceOf(s))
    ensures var r := Reconciled(m, symbol, balanceOf(symbol));
      && r.Keys == m.Keys + (if balanceOf(symbol).Ok? then {symbol} else {})
      && forall s :: s in r ==> r[s] == OrZero(balanceOf(s))
  {
  }

  /** A later refresh of the same symbol supersedes the optimistic patch entirely. */
  lemma ReconcileSupersedesPatch(balances: map<string, nat>, symbol: string, amount: int, v: nat)
    ensures Reconciled(OptimisticDebit(balances, symbol, amount), symbol, Ok(v)) == balances[symbol := v]
  {
    assert Reconciled(OptimisticDebit(balances, symbol, amount), symbol, Ok(v)).Keys == balances[symbol := v].Keys;
  }

  // ---------------------------------------------------------------------------
  // The cached token list

  /** Twenty-four hours in milliseconds. */
  const MaxTokenCacheAge: int := 24 * 60 * 60 * 1000

  datatype CacheVerdict<+T> = NothingStored | Adopt(tokens: T) | Purge

  /**
   * The mount-time rule for `ic-tokens` with `ic-tokens-timestamp`: both entries must
   * be present; the list is adopted only when it parses and is strictly younger than
   * 24 hours; an unparsable list or stamp, or an old one, removes both entries.
   */
  function TokenCacheVerdict<T>(tokensEntry: Option<Stored<T>>, stampEntry: Option<Stored<int>>, now: int)
    : (v: CacheVerdict<T>)
    ensures v.NothingStored? <==> tokensEntry.None? || stampEntry.None?
    ensures v.Adopt? <==>
            && tokensEntry.Some? && tokensEntry.value.Parsed?
            && stampEntry.Some? && stampEntry.value.Parsed?
            && now - stampEntry.value.value < MaxTokenCacheAge
    ensures v.Adopt? ==> v.tokens == tokensEntry.value.value
  {
    match (tokensEntry, stampEntry)
    case (None, _) => NothingStored
    case (_, None) => NothingStored
    case (Some(Corrupt), Some(_)) => Purge
    case (Some(Parsed(_)), Some(Corrupt)) => Purge
    case (Some(Parsed(list)), Some(Parsed(stamp))) =>
      if now - stamp < MaxTokenCacheAge then Adopt(list) else Purge
  }
}

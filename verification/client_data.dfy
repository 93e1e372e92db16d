/**
 * The values the browser client keeps about the ledger: the token list with
 * supplies, the balance map, the flattened transaction list, and the form in which
 * each of them sits in local storage.
 */
module ClientData {
  import opened Outcomes

  /** One `(name, symbol, image_url)` triple of `get_token_list`. */
  datatype TokenInfo = TokenInfo(name: string, symbol: string, imageUrl: string)

  /** A token as the client holds it: the listed triple, `id` (= symbol) and the fetched supply. */
  datatype CachedToken = CachedToken(name: string, symbol: string, imageUrl: string, id: string, totalSupply: nat)

  /** A history record as `get_transactions` returns it, principals already in text form. */
  datatype RawTransaction = RawTransaction(from: Option<string>, to: string, amount: nat, timestamp: nat)

  /** A history record as the client lists it. */
  datatype TxView = TxView(kind: string, from: string, to: string, amount: nat, timestamp: nat, symbol: string)

  const TransferKind := "transfer"
  /** The fallback sender text of `loadTransactions`; decoded records never reach it. */
  const UnknownSender := "Unknown"

  /** What reading a stored string gives: a parsed value, or a parse error (a corrupt entry). */
  datatype Stored<+T> = Parsed(value: T) | Corrupt

  /** The set of symbols of a token list. */
  function Symbols(tokens: seq<CachedToken>): set<string>
  {
    set t | t in tokens :: t.symbol
  }

  /** A stored entry read with a fallback for "absent" and for "does not parse". */
  function ParsedOr<T>(entry: Option<Stored<T>>, default: T): T
  {
    if entry.Some? && entry.value.Parsed? then entry.value.value else default
  }

  /** JavaScript truthiness of a value read from local storage (absent and empty are falsy). */
  predicate Truthy(entry: Option<string>)
  {
    entry.Some? && entry.value != ""
  }
}

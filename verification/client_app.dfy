/**
 * The browser client's state and its handlers, run as sequential steps. React
 * state and the browser's local storage are fields of one object; every remote
 * answer is an argument (a reply, or a function from the queried symbol to the
 * reply), and so is the clock.
 */
module ClientApp {
  import opened Outcomes
  import opened ClientData
  import opened Refreshers
  import opened LocalChecks
  import opened Notifications

  /** How `handleTransfer` ended. */
  datatype TransferStep = Unverified | Refused(why: Rejection) | CallFailed(error: string) | Submitted

  const LoggedOut := Text("Successfully logged out")
  const SessionExpired := Text("Authentication expired. Please login again.")
  const TransferContext := "Failed to transfer tokens"

  /** The notice `handleTransfer` shows for each local refusal. */
  function RefusalNotice(why: Rejection, symbol: string, amount: int): Message
  {
    match why
    case InsufficientBalance(have) => InsufficientBalanceNotice(have, symbol, amount)
    case NonPositiveAmount => Text("Transfer amount must be greater than 0")
    case InvalidRecipient => Text("Invalid recipient principal address")
    case SenderUnreadable => Thrown(TransferContext)
    case SelfTransfer => Text("Cannot transfer tokens to yourself")
  }

  /** The stored flag is "true" with a stored principal, or the identity provider still vouches. */
  predicate SessionVouched(auth: Option<string>, principal: Option<string>, providerVouches: bool)
  {
    (auth == Some("true") && Truthy(principal)) || providerVouches
  }

  class App {
    // React state
    var tokens: seq<CachedToken>
    var balances: map<string, nat>
    var transactions: seq<TxView>
    var notifications: seq<Notification>
    var dataLoading: bool
    var isAuthenticated: bool
    var userPrincipal: string      // "" stands for `null`
    var actorReady: bool           // `canisterActor` is set
    var forceUpdate: nat
    var pendingSymbol: string      // `newToken.symbol` of the creation form

    // Local storage: "ic-auth", "ic-principal", "ic-tokens", "ic-tokens-timestamp",
    // "ic-balances", "ic-transactions"
    var storedAuth: Option<string>
    var storedPrincipal: Option<string>
    var storedTokens: Option<Stored<seq<CachedToken>>>
    var storedTokensAt: Option<Stored<int>>
    var storedBalances: Option<Stored<map<string, nat>>>
    var storedTransactions: Option<Stored<seq<TxView>>>

    /**
     * The first render: the three data lists are read from storage with no age check,
     * falling back to empty when absent or unparsable; the session flag needs both
     * stored auth entries.
     */
    constructor Mount(auth: Option<string>, principal: Option<string>,
                      cachedTokens: Option<Stored<seq<CachedToken>>>, cachedTokensAt: Option<Stored<int>>,
                      cachedBalances: Option<Stored<map<string, nat>>>, cachedTransactions: Option<Stored<seq<TxView>>>)
      ensures tokens == ParsedOr(cachedTokens, [])
      ensures balances == ParsedOr(cachedBalances, map[])
      ensures transactions == ParsedOr(cachedTransactions, [])
      ensures isAuthenticated <==> Truthy(auth) && Truthy(principal)
      ensures userPrincipal == (if Truthy(principal) then principal.value else "")
      ensures notifications == [] && !dataLoading && !actorReady && forceUpdate == 0 && pendingSymbol == ""
      ensures storedAuth == auth && storedPrincipal == principal
      ensures storedTokens == cachedTokens && storedTokensAt == cachedTokensAt
      ensures storedBalances == cachedBalances && storedTransactions == cachedTransactions
    {
      tokens := ParsedOr(cachedTokens, []);
      balances := ParsedOr(cachedBalances, map[]);
      transactions := ParsedOr(cachedTransactions, []);
      isAuthenticated := Truthy(auth) && Truthy(principal);
      userPrincipal := if Truthy(principal) then principal.value else "";
      notifications := [];
      dataLoading := false;
      actorReady := false;
      forceUpdate := 0;
      pendingSymbol := "";
      storedAuth := auth;
      storedPrincipal := principal;
      storedTokens := cachedTokens;
      storedTokensAt := cachedTokensAt;
      storedBalances := cachedBalances;
      storedTransactions := cachedTransactions;
    }

    // -------------------------------------------------------------------------
    // Notifications

    /** `addNotification`: appends one record stamped with the current millisecond. */
    method AddNotification(message: Message, severity: Severity, now: int)
      modifies this`notifications
      ensures notifications == old(notifications) + [Notification(now, message, severity)]
    {
      notifications := notifications + [Notification(now, message, severity)];
    }

    /** The expiry timer of the record stamped `id`. */
    method ExpireNotification(id: int)
      modifies this`notifications
      ensures notifications == WithoutId(old(notifications), id)
    {
      notifications := WithoutId(notifications, id);
    }

    /** `removeNotification`: the close button of the record at `index`. */
    method RemoveNotification(index: int)
      modifies this`notifications
      ensures notifications == WithoutIndex(old(notifications), index)
    {
      notifications := WithoutIndex(notifications, index);
    }

    // -------------------------------------------------------------------------
    // The token cache

    /** The effect that follows every change of `tokens`: a non-empty list is stored and stamped. */
    method PersistTokens(now: int)
      modifies this`storedTokens, this`storedTokensAt
      ensures |tokens| > 0 ==> storedTokens == Some(Parsed(tokens)) && storedTokensAt == Some(Parsed(now))
      ensures |tokens| == 0 ==> storedTokens == old(storedTokens) && storedTokensAt == old(storedTokensAt)
    {
      if |tokens| > 0 {
        storedTokens := Some(Parsed(tokens));
        storedTokensAt := Some(Parsed(now));
      }
    }

    /** The mount effect for signed-out visitors: adopt a young stored list, purge an old or corrupt one. */
    method CheckCachedTokens(now: int)
      modifies this`tokens, this`storedTokens, this`storedTokensAt
      ensures var verdict := TokenCacheVerdict(old(storedTokens), old(storedTokensAt), now);
        if !isAuthenticated && !actorReady && verdict.Adopt? then
          tokens == verdict.tokens && storedTokens == old(storedTokens) && storedTokensAt == old(storedTokensAt)
        else if !isAuthenticated && !actorReady && verdict.Purge? then
          tokens == old(tokens) && storedTokens.None? && storedTokensAt.None?
        else
          tokens == old(tokens) && storedTokens == old(storedTokens) && storedTokensAt == old(storedTokensAt)
    {
      if !isAuthenticated && !actorReady {
        var verdict := TokenCacheVerdict(storedTokens, storedTokensAt, now);
        match verdict {
          case Adopt(list) =>
            tokens := list;
          case Purge =>
            storedTokens := None;
            storedTokensAt := None;
          case NothingStored =>
        }
      }
    }

    /**
     * The mount effects in declaration order: the persisting effect sees the list the
     * first render read from storage and re-stamps it before the age check reads the
     * stamp, so a non-empty stored list is kept whatever its age.
     */
    method RunMountEffects(now: int)
      modifies this`tokens, this`storedTokens, this`storedTokensAt
      ensures |old(tokens)| > 0 ==> tokens == old(tokens) && storedTokensAt == Some(Parsed(now))
      ensures |old(tokens)| > 0 ==> storedTokens == Some(Parsed(tokens))
      ensures |old(tokens)| == 0 && !isAuthenticated && !actorReady ==>
        match TokenCacheVerdict(old(storedTokens), old(storedTokensAt), now)
        case Adopt(list) =>
          tokens == list && storedTokens == old(storedTokens) && storedTokensAt == old(storedTokensAt)
        case Purge => tokens == [] && storedTokens.None? && storedTokensAt.None?
        case NothingStored =>
          tokens == [] && storedTokens == old(storedTokens) && storedTokensAt == old(storedTokensAt)
      ensures |old(tokens)| == 0 && (isAuthenticated || actorReady) ==>
        tokens == old(tokens) && storedTokens == old(storedTokens) && storedTokensAt == old(storedTokensAt)
    {
      PersistTokens(now);
      CheckCachedTokens(now);
    }

    // -------------------------------------------------------------------------
    // Refreshers. `seen` is the token list of the render whose handler runs.

    /** `loadTokens`: a listed refresh with per-token supplies, or one error notice. */
    method LoadTokens(listReply: Remote<seq<TokenInfo>>, supplyOf: string -> Remote<nat>, now: int)
      modifies this`tokens, this`storedTokens, this`storedTokensAt, this`notifications
      ensures !actorReady ==>
        tokens == old(tokens) && notifications == old(notifications)
        && storedTokens == old(storedTokens) && storedTokensAt == old(storedTokensAt)
      ensures actorReady && listReply.Ok? ==>
        && ListedWithSupply(tokens, listReply.value, supplyOf)
        && storedTokens == Some(Parsed(tokens))
        && storedTokensAt == (if |tokens| > 0 then Some(Parsed(now)) else old(storedTokensAt))
        && notifications == old(notifications)
      ensures actorReady && listReply.Err? ==>
        && tokens == old(tokens) && storedTokens == old(storedTokens) && storedTokensAt == old(storedTokensAt)
        && notifications == old(notifications) + [Notification(now, Text(listReply.error), Error)]
    {
      if !actorReady {
        return;
      }
      if listReply.Ok? {
        var list := FetchSupplies(listReply.value, supplyOf);
        tokens := list;
        storedTokens := Some(Parsed(list));
        PersistTokens(now);
      } else {
        AddNotification(Text(listReply.error), Error, now);
      }
    }

    /** `loadBalances`: the whole map is replaced, one key per token of `seen`. */
    method LoadBalances(seen: seq<CachedToken>, balanceOf: string -> Remote<nat>)
      modifies this`balances, this`storedBalances
      ensures !actorReady || userPrincipal == "" ==>
        balances == old(balances) && storedBalances == old(storedBalances)
      ensures actorReady && userPrincipal != "" ==>
        FreshBalances(balances, seen, balanceOf) && storedBalances == Some(Parsed(balances))
    {
      if !actorReady || userPrincipal == "" {
        return;
      }
      var refreshed := FetchBalances(seen, balanceOf);
      balances := refreshed;
      storedBalances := Some(Parsed(refreshed));
    }

    /** `forceLoadBalances`: as `loadBalances`, plus the symbol of the token being created. */
    method ForceLoadBalances(seen: seq<CachedToken>, balanceOf: string -> Remote<nat>)
      modifies this`balances, this`storedBalances
      ensures !actorReady || userPrincipal == "" ==>
        balances == old(balances) && storedBalances == old(storedBalances)
      ensures actorReady && userPrincipal != "" ==>
        && balances.Keys == WithPending(Symbols(seen), pendingSymbol)
        && (forall s :: s in balances ==> balances[s] == OrZero(balanceOf(s)))
        && storedBalances == Some(Parsed(balances))
    {
      if !actorReady || userPrincipal == "" {
        return;
      }
      var refreshed := ForceFetchBalances(seen, pendingSymbol, balanceOf);
      balances := refreshed;
      storedBalances := Some(Parsed(refreshed));
    }

    /**
     * `loadTransactions`: a non-empty `symbol` replaces the list with that token's
     * records alone (nothing if its lookup fails); `""` gathers every token of `seen`.
     * Either way the list is sorted newest first and stored.
     */
    method LoadTransactions(seen: seq<CachedToken>, symbol: string,
                            transactionsOf: string -> Remote<seq<RawTransaction>>)
      modifies this`transactions, this`storedTransactions
      ensures !actorReady || userPrincipal == "" ==>
        transactions == old(transactions) && storedTransactions == old(storedTransactions)
      ensures actorReady && userPrincipal != "" ==>
        && transactions == SortNewestFirst(if symbol != "" then Part(transactionsOf(symbol), symbol)
                                           else Concatenated(seen, transactionsOf))
        && storedTransactions == Some(Parsed(transactions))
    {
      if !actorReady || userPrincipal == "" {
        return;
      }
      var all: seq<TxView>;
      if symbol != "" {
        all := Part(transactionsOf(symbol), symbol);
      } else {
        all := CollectTransactions(seen, transactionsOf);
      }
      transactions := SortNewestFirst(all);
      storedTransactions := Some(Parsed(transactions));
    }

    /** `refreshTokenBalance`: overwrites one key on success; a failed lookup changes nothing. */
    method RefreshTokenBalance(symbol: string, reply: Remote<nat>)
      modifies this`balances, this`storedBalances
      ensures !actorReady || userPrincipal == "" || symbol == "" || reply.Err? ==>
        balances == old(balances) && storedBalances == old(storedBalances)
      ensures actorReady && userPrincipal != "" && symbol != "" && reply.Ok? ==>
        balances == Reconciled(old(balances), symbol, reply) && storedBalances == Some(Parsed(balances))
    {
      if !actorReady || userPrincipal == "" || symbol == "" {
        return;
      }
      if reply.Ok? {
        balances := Reconciled(balances, symbol, reply);
        storedBalances := Some(Parsed(balances));
      }
    }

    /** `forceRefreshTokenBalance`: as `refreshTokenBalance`, and bumps the re-render counter on success. */
    method ForceRefreshTokenBalance(symbol: string, reply: Remote<nat>)
      modifies this`balances, this`storedBalances, this`forceUpdate
      ensures !actorReady || userPrincipal == "" || symbol == "" || reply.Err? ==>
        balances == old(balances) && storedBalances == old(storedBalances) && forceUpdate == old(forceUpdate)
      ensures actorReady && userPrincipal != "" && symbol != "" && reply.Ok? ==>
        && balances == Reconciled(old(balances), symbol, reply) && storedBalances == Some(Parsed(balances))
        && forceUpdate == old(forceUpdate) + 1
    {
      if !actorReady || userPrincipal == "" || symbol == "" {
        return;
      }
      if reply.Ok? {
        balances := Reconciled(balances, symbol, reply);
        storedBalances := Some(Parsed(balances));
        forceUpdate := forceUpdate + 1;
      }
    }

    /**
     * `loadDataFromCanister`: skipped while a load is flagged; otherwise tokens, then
     * balances, then every token's transactions, and the flag is cleared at the end.
     * The later steps use the token list the calling render saw.
     */
    method LoadDataFromCanister(listReply: Remote<seq<TokenInfo>>, supplyOf: string -> Remote<nat>,
                                balanceOf: string -> Remote<nat>,
                                transactionsOf: string -> Remote<seq<RawTransaction>>, now: int)
      modifies this`tokens, this`storedTokens, this`storedTokensAt, this`notifications,
               this`balances, this`storedBalances, this`transactions, this`storedTransactions,
               this`dataLoading
      ensures old(dataLoading) ==>
        && dataLoading
        && tokens == old(tokens) && balances == old(balances) && transactions == old(transactions)
        && notifications == old(notifications)
        && storedTokens == old(storedTokens) && storedTokensAt == old(storedTokensAt)
        && storedBalances == old(storedBalances) && storedTransactions == old(storedTransactions)
      ensures !old(dataLoading) ==> !dataLoading
      ensures !old(dataLoading) && !actorReady ==>
        && tokens == old(tokens) && balances == old(balances) && transactions == old(transactions)
        && notifications == old(notifications)
        && storedTokens == old(storedTokens) && storedTokensAt == old(storedTokensAt)
        && storedBalances == old(storedBalances) && storedTransactions == old(storedTransactions)
      ensures !old(dataLoading) && actorReady && listReply.Ok? ==>
        && ListedWithSupply(tokens, listReply.value, supplyOf)
        && storedTokens == Some(Parsed(tokens))
        && storedTokensAt == (if |tokens| > 0 then Some(Parsed(now)) else old(storedTokensAt))
        && notifications == old(notifications)
      ensures !old(dataLoading) && actorReady && listReply.Err? ==>
        && tokens == old(tokens) && storedTokens == old(storedTokens) && storedTokensAt == old(storedTokensAt)
        && notifications == old(notifications) + [Notification(now, Text(listReply.error), Error)]
      ensures !old(dataLoading) && actorReady && userPrincipal == "" ==>
        && balances == old(balances) && transactions == old(transactions)
        && storedBalances == old(storedBalances) && storedTransactions == old(storedTransactions)
      ensures !old(dataLoading) && actorReady && userPrincipal != "" ==>
        && FreshBalances(balances, old(tokens), balanceOf)
        && transactions == SortNewestFirst(Concatenated(old(tokens), transactionsOf))
        && storedBalances == Some(Parsed(balances)) && storedTransactions == Some(Parsed(transactions))
    {
      if dataLoading {
        return;
      }
      dataLoading := true;
      LoadAll(listReply, supplyOf, balanceOf, transactionsOf, now);
      dataLoading := false;
    }

    /** The three loads of `loadDataFromCanister`; balances and transactions use the list held at the start. */
    method LoadAll(listReply: Remote<seq<TokenInfo>>, supplyOf: string -> Remote<nat>,
                   balanceOf: string -> Remote<nat>,
                   transactionsOf: string -> Remote<seq<RawTransaction>>, now: int)
      modifies this`tokens, this`storedTokens, this`storedTokensAt, this`notifications,
               this`balances, this`storedBalances, this`transactions, this`storedTransactions
      ensures !actorReady ==>
        && tokens == old(tokens) && balances == old(balances) && transactions == old(transactions)
        && notifications == old(notifications)
        && storedTokens == old(storedTokens) && storedTokensAt == old(storedTokensAt)
        && storedBalances == old(storedBalances) && storedTransactions == old(storedTransactions)
      ensures actorReady && listReply.Ok? ==>
        && ListedWithSupply(tokens, listReply.value, supplyOf)
        && storedTokens == Some(Parsed(tokens))
        && storedTokensAt == (if |tokens| > 0 then Some(Parsed(now)) else old(storedTokensAt))
        && notifications == old(notifications)
      ensures actorReady && listReply.Err? ==>
        && tokens == old(tokens) && storedTokens == old(storedTokens) && storedTokensAt == old(storedTokensAt)
        && notifications == old(notifications) + [Notification(now, Text(listReply.error), Error)]
      ensures actorReady && userPrincipal == "" ==>
        && balances == old(balances) && transactions == old(transactions)
        && storedBalances == old(storedBalances) && storedTransactions == old(storedTransactions)
      ensures actorReady && userPrincipal != "" ==>
        && FreshBalances(balances, old(tokens), balanceOf)
        && transactions == SortNewestFirst(Concatenated(old(tokens), transactionsOf))
        && storedBalances == Some(Parsed(balances)) && storedTransactions == Some(Parsed(transactions))
    {
      var seen := tokens;
      LoadTokens(listReply, supplyOf, now);
      LoadBalances(seen, balanceOf);
      LoadTransactions(seen, "", transactionsOf);
    }

    // -------------------------------------------------------------------------
    // Session

    /** The state `handleLogout` leaves: no session, no data, and none of the six stored entries. */
    ghost predicate SignedOutAndCleared()
      reads this
    {
      && !isAuthenticated && userPrincipal == "" && !actorReady
      && tokens == [] && transactions == [] && balances == map[]
      && storedAuth.None? && storedPrincipal.None? && storedTokens.None? && storedTokensAt.None?
      && storedBalances.None? && storedTransactions.None?
    }

    /** The session: the signed-in flag, the principal, the actor and the two stored auth entries. */
    ghost function Session(): (bool, string, bool, Option<string>, Option<string>)
      reads this
    {
      (isAuthenticated, userPrincipal, actorReady, storedAuth, storedPrincipal)
    }

    /** The session and every stored entry except `ic-balances`. */
    ghost function SessionAndStorage(): (bool, string, bool, Option<string>, Option<string>,
                                         Option<Stored<seq<CachedToken>>>, Option<Stored<int>>,
                                         Option<Stored<seq<TxView>>>)
      reads this
    {
      (isAuthenticated, userPrincipal, actorReady, storedAuth, storedPrincipal,
       storedTokens, storedTokensAt, storedTransactions)
    }

    /** `handleLogout`: clears the session and the data, removes every stored entry, says goodbye. */
    method HandleLogout(now: int)
      modifies this`isAuthenticated, this`userPrincipal, this`actorReady, this`tokens, this`transactions,
               this`balances, this`notifications, this`storedAuth, this`storedPrincipal, this`storedTokens,
               this`storedTokensAt, this`storedBalances, this`storedTransactions
      ensures SignedOutAndCleared()
      ensures notifications == old(notifications) + [Notification(now, LoggedOut, Info)]
    {
      isAuthenticated := false;
      userPrincipal := "";
      actorReady := false;
      tokens := [];
      transactions := [];
      balances := map[];
      ClearStorage();
      AddNotification(LoggedOut, Info, now);
    }

    /** The six `localStorage.removeItem` calls of `handleLogout`. */
    method ClearStorage()
      modifies this`storedAuth, this`storedPrincipal, this`storedTokens, this`storedTokensAt,
               this`storedBalances, this`storedTransactions
      ensures storedAuth.None? && storedPrincipal.None? && storedTokens.None? && storedTokensAt.None?
      ensures storedBalances.None? && storedTransactions.None?
    {
      storedAuth := None;
      storedPrincipal := None;
      storedTokens := None;
      storedTokensAt := None;
      storedBalances := None;
      storedTransactions := None;
    }

    /**
     * `verifyAuthentication`: false without an actor or a principal; true when the stored
     * flag is "true" and a principal is stored, or when the identity provider still
     * vouches for the session; otherwise a notice and a full logout.
     */
    method VerifyAuthentication(providerVouches: bool, now: int) returns (ok: bool)
      modifies this`isAuthenticated, this`userPrincipal, this`actorReady, this`tokens, this`transactions,
               this`balances, this`notifications, this`storedAuth, this`storedPrincipal, this`storedTokens,
               this`storedTokensAt, this`storedBalances, this`storedTransactions
      ensures ok <==> old(actorReady) && old(userPrincipal) != ""
                      && SessionVouched(old(storedAuth), old(storedPrincipal), providerVouches)
      ensures ok ==> actorReady && userPrincipal != ""
      ensures ok || !old(actorReady) || old(userPrincipal) == "" ==> unchanged(this)
      ensures !ok && old(actorReady) && old(userPrincipal) != "" ==>
        && SignedOutAndCleared()
        && notifications == old(notifications) + [Notification(now, SessionExpired, Error),
                                                   Notification(now, LoggedOut, Info)]
    {
      if !actorReady || userPrincipal == "" {
        return false;
      }
      if storedAuth == Some("true") && Truthy(storedPrincipal) {
        return true;
      }
      if providerVouches {
        return true;
      }
      AddNotification(SessionExpired, Error, now);
      HandleLogout(now);
      return false;
    }

    // -------------------------------------------------------------------------
    // Transfers and mints

    /**
     * `handleTransfer` up to the remote call's answer: the session check, the local
     * refusals in source order, then the ledger's `transfer`. Any answer that is not an
     * exception counts as done, even a `false` from the ledger: the cached balance is
     * debited optimistically and stored.
     */
    method SubmitTransfer(symbol: string, amount: int, recipient: string, parse: string -> Option<string>,
                          providerVouches: bool, outcome: Remote<bool>, now: int)
      returns (step: TransferStep)
      modifies this`isAuthenticated, this`userPrincipal, this`actorReady, this`tokens, this`transactions,
               this`balances, this`notifications, this`storedAuth, this`storedPrincipal, this`storedTokens,
               this`storedTokensAt, this`storedBalances, this`storedTransactions
      ensures step == Unverified <==>
        !(old(actorReady) && old(userPrincipal) != ""
          && SessionVouched(old(storedAuth), old(storedPrincipal), providerVouches))
      ensures step == Unverified && !(old(actorReady) && old(userPrincipal) != "") ==> unchanged(this)
      ensures step == Unverified && old(actorReady) && old(userPrincipal) != "" ==>
        && SignedOutAndCleared()
        && notifications == old(notifications) + [Notification(now, SessionExpired, Error),
                                                   Notification(now, LoggedOut, Info)]
      ensures step != Unverified ==>
        && actorReady && userPrincipal == old(userPrincipal) != "" && pendingSymbol == old(pendingSymbol)
        && SessionAndStorage() == old(SessionAndStorage())
      ensures step.Refused? || step.CallFailed? ==> storedBalances == old(storedBalances)
      ensures step != Unverified ==>
        var verdict := TransferCheck(old(balances), symbol, amount, old(userPrincipal), recipient, parse);
        && tokens == old(tokens) && transactions == old(transactions)
        && (verdict.Reject? ==>
              step == Refused(verdict.why) && balances == old(balances)
              && notifications == old(notifications) + [Notification(now, RefusalNotice(verdict.why, symbol, amount), Error)])
        && (verdict.Proceed? && outcome.Err? ==>
              step == CallFailed(outcome.error) && balances == old(balances)
              && notifications == old(notifications) + [Notification(now, Text(outcome.error), Error)])
        && (verdict.Proceed? && outcome.Ok? ==>
              step == Submitted
              && balances == OptimisticDebit(old(balances), symbol, amount)
              && storedBalances == Some(Parsed(balances))
              && notifications == old(notifications) + [Notification(now, TransferredNotice(amount, symbol), Success)])
    {
      var verified := VerifyAuthentication(providerVouches, now);
      if !verified {
        return Unverified;
      }
      step := SubmitChecked(symbol, amount, recipient, parse, outcome, now);
    }

    /**
     * The part of `handleTransfer` after the session check: the local refusals, then the
     * ledger's answer. Only the balances, their stored copy and the notices can change.
     */
    method SubmitChecked(symbol: string, amount: int, recipient: string, parse: string -> Option<string>,
                         outcome: Remote<bool>, now: int)
      returns (step: TransferStep)
      modifies this`balances, this`storedBalances, this`notifications
      ensures var verdict := TransferCheck(old(balances), symbol, amount, userPrincipal, recipient, parse);
        && (verdict.Reject? ==>
              step == Refused(verdict.why) && balances == old(balances) && storedBalances == old(storedBalances)
              && notifications == old(notifications) + [Notification(now, RefusalNotice(verdict.why, symbol, amount), Error)])
        && (verdict.Proceed? && outcome.Err? ==>
              step == CallFailed(outcome.error) && balances == old(balances) && storedBalances == old(storedBalances)
              && notifications == old(notifications) + [Notification(now, Text(outcome.error), Error)])
        && (verdict.Proceed? && outcome.Ok? ==>
              step == Submitted
              && balances == OptimisticDebit(old(balances), symbol, amount)
              && storedBalances == Some(Parsed(balances))
              && notifications == old(notifications) + [Notification(now, TransferredNotice(amount, symbol), Success)])
    {
      var verdict := TransferCheck(balances, symbol, amount, userPrincipal, recipient, parse);
      if verdict.Reject? {
        AddNotification(RefusalNotice(verdict.why, symbol, amount), Error, now);
        return Refused(verdict.why);
      }
      if outcome.Err? {
        AddNotification(Text(outcome.error), Error, now);
        return CallFailed(outcome.error);
      }
      AddNotification(TransferredNotice(amount, symbol), Success, now);
      balances := OptimisticDebit(balances, symbol, amount);
      storedBalances := Some(Parsed(balances));
      return Submitted;
    }

    /**
     * `handleTransfer` in full: after a submitted transfer, all balances are reloaded
     * (with the pending symbol), the symbol's balance is re-read, and the list is
     * replaced by that symbol's transactions.
     */
    method HandleTransfer(symbol: string, amount: int, recipient: string, parse: string -> Option<string>,
                          providerVouches: bool, outcome: Remote<bool>,
                          balanceOf: string -> Remote<nat>,
                          transactionsOf: string -> Remote<seq<RawTransaction>>, now: int)
      returns (step: TransferStep)
      modifies this`isAuthenticated, this`userPrincipal, this`actorReady, this`tokens, this`transactions,
               this`balances, this`notifications, this`storedAuth, this`storedPrincipal, this`storedTokens,
               this`storedTokensAt, this`storedBalances, this`storedTransactions,
               this`forceUpdate
      ensures step == Unverified <==>
        !(old(actorReady) && old(userPrincipal) != ""
          && SessionVouched(old(storedAuth), old(storedPrincipal), providerVouches))
      ensures step == Unverified && !(old(actorReady) && old(userPrincipal) != "") ==> unchanged(this)
      ensures step == Unverified && old(actorReady) && old(userPrincipal) != "" ==>
        && SignedOutAndCleared()
        && notifications == old(notifications) + [Notification(now, SessionExpired, Error),
                                                   Notification(now, LoggedOut, Info)]
      ensures step.Refused? ==>
        TransferCheck(old(balances), symbol, amount, old(userPrincipal), recipient, parse) == Reject(step.why)
      ensures step.CallFailed? ==>
        TransferCheck(old(balances), symbol, amount, old(userPrincipal), recipient, parse).Proceed?
        && outcome == Err(step.error)
      ensures step.Refused? || step.CallFailed? ==>
        && SessionAndStorage() == old(SessionAndStorage())
        && balances == old(balances) && storedBalances == old(storedBalances)
        && tokens == old(tokens) && transactions == old(transactions)
        && notifications == old(notifications)
           + [Notification(now, if step.Refused? then RefusalNotice(step.why, symbol, amount) else Text(step.error), Error)]
      ensures step == Submitted ==>
        && TransferCheck(old(balances), symbol, amount, old(userPrincipal), recipient, parse).Proceed?
        && outcome.Ok? && actorReady && userPrincipal != ""
        && notifications == old(notifications) + [Notification(now, TransferredNotice(amount, symbol), Success)]
      ensures step == Submitted ==>
        && Session() == old(Session()) && tokens == old(tokens)
        && storedTokens == old(storedTokens) && storedTokensAt == old(storedTokensAt)
        && storedBalances == Some(Parsed(balances)) && storedTransactions == Some(Parsed(transactions))
      ensures step == Submitted && symbol != "" ==>
        && (forall s :: s in balances ==> balances[s] == OrZero(balanceOf(s)))
        && balances.Keys == WithPending(Symbols(tokens), pendingSymbol) + (if balanceOf(symbol).Ok? then {symbol} else {})
        && transactions == SortNewestFirst(Part(transactionsOf(symbol), symbol))
    {
      step := SubmitTransfer(symbol, amount, recipient, parse, providerVouches, outcome, now);
      if step == Submitted {
        ReloadAfterTransfer(symbol, balanceOf, transactionsOf);
      }
    }

    /**
     * The reloads that follow a submitted transfer: `forceLoadBalances`,
     * `forceRefreshTokenBalance` for the transferred symbol, then `loadTransactions` for it.
     */
    method ReloadAfterTransfer(symbol: string, balanceOf: string -> Remote<nat>,
                               transactionsOf: string -> Remote<seq<RawTransaction>>)
      requires actorReady && userPrincipal != ""
      modifies this`balances, this`storedBalances, this`forceUpdate, this`transactions, this`storedTransactions
      ensures tokens == old(tokens)
      ensures storedBalances == Some(Parsed(balances)) && storedTransactions == Some(Parsed(transactions))
      ensures symbol != "" ==>
        && (forall s :: s in balances ==> balances[s] == OrZero(balanceOf(s)))
        && balances.Keys == WithPending(Symbols(tokens), pendingSymbol) + (if balanceOf(symbol).Ok? then {symbol} else {})
        && transactions == SortNewestFirst(Part(transactionsOf(symbol), symbol))
    {
      if symbol != "" {
        ReloadBalancesAfterTransfer(symbol, balanceOf);
      } else {
        ForceLoadBalances(tokens, balanceOf);
        ForceRefreshTokenBalance(symbol, balanceOf(symbol));
      }
      LoadTransactions(tokens, symbol, transactionsOf);
    }

    /**
     * The balance follow-ups of a submitted transfer: `forceLoadBalances`, then
     * `forceRefreshTokenBalance` for the transferred symbol, both against one ledger state.
     */
    method ReloadBalancesAfterTransfer(symbol: string, balanceOf: string -> Remote<nat>)
      requires actorReady && userPrincipal != "" && symbol != ""
      modifies this`balances, this`storedBalances, this`forceUpdate
      ensures forall s :: s in balances ==> balances[s] == OrZero(balanceOf(s))
      ensures balances.Keys == WithPending(Symbols(tokens), pendingSymbol) + (if balanceOf(symbol).Ok? then {symbol} else {})
      ensures storedBalances == Some(Parsed(balances))
    {
      ForceLoadBalances(tokens, balanceOf);
      ReconcileAgreesWithReload(balances, symbol, balanceOf);
      ForceRefreshTokenBalance(symbol, balanceOf(symbol));
    }

    /**
     * `handleMint`: a transfer from the signed-in principal to itself. On success a
     * notice, then the balances and that symbol's transactions are reloaded; on failure
     * the error is shown and nothing else changes.
     */
    method HandleMint(symbol: string, amount: int, providerVouches: bool, outcome: Remote<bool>,
                      balanceOf: string -> Remote<nat>,
                      transactionsOf: string -> Remote<seq<RawTransaction>>, now: int)
      returns (verified: bool)
      modifies this`isAuthenticated, this`userPrincipal, this`actorReady, this`tokens, this`transactions,
               this`balances, this`notifications, this`storedAuth, this`storedPrincipal, this`storedTokens,
               this`storedTokensAt, this`storedBalances, this`storedTransactions
      ensures verified <==> old(actorReady) && old(userPrincipal) != ""
                            && SessionVouched(old(storedAuth), old(storedPrincipal), providerVouches)
      ensures !verified && !(old(actorReady) && old(userPrincipal) != "") ==> unchanged(this)
      ensures !verified && old(actorReady) && old(userPrincipal) != "" ==>
        && SignedOutAndCleared()
        && notifications == old(notifications) + [Notification(now, SessionExpired, Error),
                                                   Notification(now, LoggedOut, Info)]
      ensures verified ==>
        && Session() == old(Session()) && tokens == old(tokens)
        && storedTokens == old(storedTokens) && storedTokensAt == old(storedTokensAt)
      ensures verified && outcome.Ok? ==>
        && storedBalances == Some(Parsed(balances)) && storedTransactions == Some(Parsed(transactions))
        && notifications == old(notifications) + [Notification(now, MintedNotice(amount, symbol), Success)]
        && FreshBalances(balances, old(tokens), balanceOf)
        && transactions == SortNewestFirst(if symbol != "" then Part(transactionsOf(symbol), symbol)
                                           else Concatenated(old(tokens), transactionsOf))
      ensures verified && outcome.Err? ==>
        && notifications == old(notifications) + [Notification(now, Text(outcome.error), Error)]
        && balances == old(balances) && transactions == old(transactions)
        && storedBalances == old(storedBalances) && storedTransactions == old(storedTransactions)
    {
      verified := VerifyAuthentication(providerVouches, now);
      if !verified {
        return;
      }
      ReportMint(symbol, amount, outcome, balanceOf, transactionsOf, now);
    }

    /**
     * The part of `handleMint` after the session check: the ledger's answer is shown,
     * and on success the balances and that symbol's transactions are reloaded.
     */
    method ReportMint(symbol: string, amount: int, outcome: Remote<bool>,
                      balanceOf: string -> Remote<nat>,
                      transactionsOf: string -> Remote<seq<RawTransaction>>, now: int)
      requires actorReady && userPrincipal != ""
      modifies this`notifications, this`balances, this`storedBalances, this`transactions, this`storedTransactions
      ensures outcome.Ok? ==>
        && storedBalances == Some(Parsed(balances)) && storedTransactions == Some(Parsed(transactions))
        && notifications == old(notifications) + [Notification(now, MintedNotice(amount, symbol), Success)]
        && FreshBalances(balances, tokens, balanceOf)
        && transactions == SortNewestFirst(if symbol != "" then Part(transactionsOf(symbol), symbol)
                                           else Concatenated(tokens, transactionsOf))
      ensures outcome.Err? ==>
        && notifications == old(notifications) + [Notification(now, Text(outcome.error), Error)]
        && balances == old(balances) && transactions == old(transactions)
        && storedBalances == old(storedBalances) && storedTransactions == old(storedTransactions)
    {
      if outcome.Ok? {
        AddNotification(MintedNotice(amount, symbol), Success, now);
        LoadBalances(tokens, balanceOf);
        LoadTransactions(tokens, symbol, transactionsOf);
      } else {
        AddNotification(Text(outcome.error), Error, now);
      }
    }
  }
}

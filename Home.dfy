/**
 * The session state of src/Home.tsx: what the page knows about the candy machine
 * and the connected wallet, how a refresh sets it, and how a finished mint
 * attempt settles it. The React state the mint flow reads or writes is a set of
 * fields, each `setX` call an assignment; the two `localStorage` entries are fields too.
 */
module Home {
  import opened Wrappers
  import opened Utils
  import opened CandyMachine
  import opened Pricing
  import opened MintErrors
  import opened Collectibles
  import MintButton

  datatype Severity = Success | Info | Warning | Error | Unset

  /** The snackbar's `alertState`. */
  datatype AlertState = AlertState(open: bool, message: string, severity: Severity)

  const MINT_SUCCEEDED: string := "Congratulations! Mint succeeded!"
  const MINT_FAILED: string := "Mint failed! Please try again!"

  /**
   * How a mint attempt ended: `mintOneToken` or the confirmation wait threw, no
   * transaction id came back, or the confirmation returned a status (`None` for a
   * null status, otherwise whether its `err` is set).
   */
  datatype MintOutcome =
    | Threw(error: MintError)
    | NoTransactionId
    | Confirmed(err: Option<bool>)

  /** `!status?.err`: only a confirmation without an error counts as success. */
  predicate Succeeded(outcome: MintOutcome)
    ensures Succeeded(outcome) ==> outcome.Confirmed?
    ensures outcome == Confirmed(Some(true)) ==> !Succeeded(outcome)
    ensures outcome == Confirmed(None) ==> Succeeded(outcome)
  {
    outcome.Confirmed? && outcome.err != Some(true)
  }

  // ---------------------------------------------------------------------------
  // The counters displaySuccess updates
  // ---------------------------------------------------------------------------

  datatype Counters = Counters(
    itemsRemaining: int,
    itemsRedeemed: int,
    isSoldOut: bool,
    whitelistTokenBalance: real,
    isActive: bool)

  /**
   * `displaySuccess`: one item fewer, one more redeemed, one whitelist mint used if
   * any balance was left. The balance is `uiAmount`, a number in whole tokens that
   * may be fractional; `whitelistTokenBalance && whitelistTokenBalance > 0` holds
   * exactly for a positive balance.
   */
  function AfterSuccess(c: Counters): (r: Counters)
    ensures r.itemsRemaining == c.itemsRemaining - 1 && r.itemsRedeemed == c.itemsRedeemed + 1
    ensures r.itemsRemaining + r.itemsRedeemed == c.itemsRemaining + c.itemsRedeemed
    ensures r.isSoldOut <==> r.itemsRemaining == 0
    ensures c.whitelistTokenBalance > 0.0 ==>
              r.whitelistTokenBalance == c.whitelistTokenBalance - 1.0 && (r.isActive <==> r.whitelistTokenBalance > 0.0)
    ensures c.whitelistTokenBalance <= 0.0 ==>
              r.whitelistTokenBalance == c.whitelistTokenBalance && r.isActive == c.isActive
  {
    var remaining := c.itemsRemaining - 1;
    var whitelist :=
      if c.whitelistTokenBalance > 0.0 then c.whitelistTokenBalance - 1.0 else c.whitelistTokenBalance;
    var active := if c.whitelistTokenBalance > 0.0 then whitelist > 0.0 else c.isActive;
    Counters(remaining, c.itemsRedeemed + 1, remaining == 0, whitelist, active)
  }

  /** The counters after `k` successful mints in a row. */
  function AfterSuccesses(c: Counters, k: nat): Counters
  {
    if k == 0 then c else AfterSuccess(AfterSuccesses(c, k - 1))
  }

  /** The least whole number at or above `x`. */
  function Ceil(x: real): (n: int)
    ensures x <= n as real < x + 1.0
  {
    if x.Floor as real == x then x.Floor else x.Floor + 1
  }

  /** The smaller of two whole numbers. */
  function MinInt(a: int, b: int): int
  {
    if a <= b then a else b
  }

  /**
   * After `k` successful mints: remaining is down by `k`, redeemed up by `k`, their
   * sum unchanged, sold out exactly when the remaining count reached 0. A positive
   * whitelist balance `b` drops by one per mint until it is no longer positive,
   * that is `min(k, ceil(b))` times; a balance that is not positive stays.
   */
  lemma {:induction false} SuccessesSettle(c: Counters, k: nat)
    ensures var r := AfterSuccesses(c, k);
            && r.itemsRemaining == c.itemsRemaining - k
            && r.itemsRedeemed == c.itemsRedeemed + k
            && r.itemsRemaining + r.itemsRedeemed == c.itemsRemaining + c.itemsRedeemed
            && (k > 0 ==> (r.isSoldOut <==> c.itemsRemaining == k))
            && r.whitelistTokenBalance ==
                 if c.whitelistTokenBalance > 0.0
                 then c.whitelistTokenBalance - MinInt(k, Ceil(c.whitelistTokenBalance)) as real
                 else c.whitelistTokenBalance
  {
    if k > 0 {
      SuccessesSettle(c, k - 1);
      var b := c.whitelistTokenBalance;
      if b > 0.0 {
        if k - 1 < Ceil(b) {
          assert (k - 1) as real < b;
        }
      }
    }
  }

  /**
   * A holder of a positive whitelist balance `b` stays active after mint `k` exactly
   * while `k < b`, for every mint up to the one that uses the balance up.
   */
  lemma {:induction false} WhitelistRunsOut(c: Counters, k: nat)
    requires c.whitelistTokenBalance > 0.0
    requires 1 <= k <= Ceil(c.whitelistTokenBalance)
    ensures AfterSuccesses(c, k).isActive <==> (k as real) < c.whitelistTokenBalance
  {
    SuccessesSettle(c, k - 1);
    SuccessesSettle(c, k);
  }

  /** A balance of half a token admits one mint and then reads -0.5. */
  lemma FractionalWhitelistBalance(c: Counters)
    requires c.whitelistTokenBalance == 0.5
    ensures AfterSuccess(c).whitelistTokenBalance == -0.5 && !AfterSuccess(c).isActive
    ensures AfterSuccesses(c, 2).whitelistTokenBalance == -0.5
  {
    assert AfterSuccesses(c, 1) == AfterSuccess(c);
  }

  // ---------------------------------------------------------------------------
  // Reading the collectibles count (see Findings in README.md)
  // ---------------------------------------------------------------------------

  /** `nftNum[0]` as written: the bare fallback number 3 has no element 0, so it is undefined. */
  function OwnedCountAsWritten(r: CollectiblesResult): (owned: Option<int>)
    ensures r.Sentinel? ==> owned.None?
    ensures r.Counts? && |r.counts| > 0 ==> owned == Some(r.counts[0])
  {
    match r
    case Counts(counts) => if |counts| > 0 then Some(counts[0]) else None
    case Sentinel(_) => None
  }

  /** `tooManyTokens >= 1` as written: undefined (and NaN, what `undefined + 1` gives) compare false. */
  predicate TooManyTokensAsWritten(owned: Option<int>)
    ensures owned.None? ==> !TooManyTokensAsWritten(owned)
    ensures owned.Some? ==> (TooManyTokensAsWritten(owned) <==> owned.value >= 1)
  {
    owned.Some? && owned.value >= 1
  }

  /** As written, a wallet whose ownership scan throws is NOT limited, even though the fallback meant to limit it. */
  lemma ScanFailureAdmitsAsWritten(ledger: Ledger, derive: PublicKey -> PublicKey,
                                   deserialize: seq<bv8> -> Option<Metadata>, wallet: PublicKey, filters: seq<Filter>)
    requires WalletCount(ledger, derive, deserialize, wallet, filters).None?
    ensures AllCollectibles(ledger, derive, deserialize, [wallet], filters) == Sentinel(FALLBACK_COUNT)
    ensures !TooManyTokensAsWritten(OwnedCountAsWritten(AllCollectibles(ledger, derive, deserialize, [wallet], filters)))
  {
    assert [wallet][0] == wallet;
  }

  /** The owned count the page should take from the result: element 0, or the fallback number itself. */
  function OwnedCount(r: CollectiblesResult): (n: int)
    requires r.Counts? ==> |r.counts| > 0
    ensures r.Sentinel? ==> n == r.value
    ensures r.Counts? ==> n == r.counts[0]
  {
    match r
    case Counts(counts) => counts[0]
    case Sentinel(v) => v
  }

  /** Read this way, a failed scan of one wallet counts as owning 3, so the wallet is limited. */
  lemma ScanFailureLimits(ledger: Ledger, derive: PublicKey -> PublicKey,
                          deserialize: seq<bv8> -> Option<Metadata>, wallet: PublicKey, filters: seq<Filter>)
    ensures var r := AllCollectibles(ledger, derive, deserialize, [wallet], filters);
            && (r.Counts? ==> |r.counts| == 1)
            && (WalletCount(ledger, derive, deserialize, wallet, filters).None? ==> OwnedCount(r) >= 1)
            && (WalletCount(ledger, derive, deserialize, wallet, filters).Some? ==>
                  OwnedCount(r) == WalletCount(ledger, derive, deserialize, wallet, filters).value)
  {
    assert [wallet][0] == wallet;
  }

  // ---------------------------------------------------------------------------
  // The session
  // ---------------------------------------------------------------------------

  class MintSession {
    const decimals: nat
    const splTokenName: string

    var candyMachine: Option<CandyState>
    var itemsAvailable: int
    var itemsRedeemed: int
    var itemsRemaining: int
    var isSoldOut: bool
    var payWithSplToken: bool
    var price: real
    var priceLabel: string
    var whitelistPrice: real
    var whitelistEnabled: bool
    var whitelistTokenBalance: real
    var isActive: bool
    var isMinting: bool
    var isLoading: bool
    var tooManyTokens: int
    var alertState: AlertState
    /** `localStorage.lastMintTime` and `localStorage.lastMintAccount`. */
    var lastMintTime: Option<int>
    var lastMintAccount: Option<PublicKey>

    function CurrentCounters(): Counters
      reads this`itemsRemaining, this`itemsRedeemed, this`isSoldOut, this`whitelistTokenBalance, this`isActive
    {
      Counters(itemsRemaining, itemsRedeemed, isSoldOut, whitelistTokenBalance, isActive)
    }

    /** The props the page passes to the mint button. */
    function ButtonProps(wallet: bool): (p: MintButton.Props)
      reads this
      ensures p.mintable && (p.tooManyTokens <==> tooManyTokens >= 1)
    {
      MintButton.Props(candyMachine, isMinting, isActive, isSoldOut, wallet, true, tooManyTokens >= 1)
    }

    /** The initial `useState` values, the configuration, and what `localStorage` already holds. */
    constructor (decimalsEnv: Option<nat>, tokenNameEnv: Option<string>,
                 storedTime: Option<int>, storedAccount: Option<PublicKey>)
      ensures decimals == SplTokenDecimals(decimalsEnv) && splTokenName == SplTokenName(tokenNameEnv)
      ensures candyMachine.None? && !isActive && !isMinting && !isLoading && !isSoldOut
      ensures itemsAvailable == 0 && itemsRedeemed == 0 && itemsRemaining == 0
      ensures !payWithSplToken && price == 0.0 && priceLabel == SOL_LABEL && whitelistPrice == 0.0
      ensures !whitelistEnabled && whitelistTokenBalance == 0.0 && tooManyTokens == 0
      ensures alertState == AlertState(false, "", Unset)
      ensures lastMintTime == storedTime && lastMintAccount == storedAccount
    {
      decimals := SplTokenDecimals(decimalsEnv);
      splTokenName := SplTokenName(tokenNameEnv);
      candyMachine := None;
      itemsAvailable, itemsRedeemed, itemsRemaining := 0, 0, 0;
      isSoldOut, payWithSplToken := false, false;
      price, priceLabel, whitelistPrice := 0.0, SOL_LABEL, 0.0;
      whitelistEnabled, whitelistTokenBalance := false, 0.0;
      isActive, isMinting, isLoading := false, false, false;
      tooManyTokens := 0;
      alertState := AlertState(false, "", Unset);
      lastMintTime, lastMintAccount := storedTime, storedAccount;
    }

    /**
     * The refresh effect: `candy` is the fetched machine state, `walletCandy` the
     * second fetch made when a wallet is connected, and `whitelistBalance` the
     * whitelist token balance lookup (`None` when it throws or has no amount).
     */
    method Refresh(candy: CandyState, wallet: Option<PublicKey>, walletCandy: CandyState,
                   whitelistBalance: Option<real>)
      modifies this`isLoading, this`candyMachine, this`itemsAvailable, this`itemsRemaining, this`itemsRedeemed
      modifies this`payWithSplToken, this`priceLabel, this`price, this`whitelistPrice, this`whitelistEnabled
      modifies this`whitelistTokenBalance, this`isActive
      ensures candyMachine == Some(candy)
      ensures itemsAvailable == candy.itemsAvailable && itemsRemaining == candy.itemsRemaining
      ensures itemsRedeemed == candy.itemsRedeemed
      ensures PricesResolved(candy, old(payWithSplToken), old(priceLabel))
      ensures if wallet.Some? && walletCandy.whitelistMintSettings.Some?
              then whitelistTokenBalance == whitelistBalance.GetOr(0.0) && (isActive <==> whitelistTokenBalance > 0.0)
              else whitelistTokenBalance == old(whitelistTokenBalance) && isActive == old(isActive)
      ensures !isLoading
    {
      isLoading := true;
      candyMachine := Some(candy);
      itemsAvailable := candy.itemsAvailable;
      itemsRemaining := candy.itemsRemaining;
      itemsRedeemed := candy.itemsRedeemed;
      ResolvePrices(candy);
      if wallet.Some? {
        RefreshWhitelistBalance(walletCandy, whitelistBalance);
      }
      isLoading := false;
    }

    /**
     * The prices after a refresh: both in the machine's currency (raw price over the
     * scale), the whitelist one from the discount price when there is one, the label
     * the configured token name for an SPL price and left as it was for SOL.
     */
    ghost predicate PricesResolved(candy: CandyState, oldPayWithSplToken: bool, oldPriceLabel: string)
      reads this`payWithSplToken, this`priceLabel, this`price, this`whitelistPrice, this`whitelistEnabled
    {
      var scale := Scale(candy.tokenMint, decimals);
      var discount := if candy.whitelistMintSettings.Some? then candy.whitelistMintSettings.value.discountPrice else None;
      && price == UnitPrice(candy.price, scale)
      && whitelistPrice == UnitPrice(discount.GetOr(candy.price), scale)
      && (whitelistEnabled <==> candy.whitelistMintSettings.Some?)
      && (candy.tokenMint.Some? ==> payWithSplToken && priceLabel == splTokenName)
      && (candy.tokenMint.None? ==> payWithSplToken == oldPayWithSplToken && priceLabel == oldPriceLabel)
    }

    /** The pricing part of the refresh: scale, label, price and whitelist price. */
    method ResolvePrices(candy: CandyState)
      modifies this`payWithSplToken, this`priceLabel, this`price, this`whitelistPrice, this`whitelistEnabled
      ensures PricesResolved(candy, old(payWithSplToken), old(priceLabel))
    {
      var divider := Divider(decimals);
      if candy.tokenMint.Some? {
        payWithSplToken := true;
        priceLabel := splTokenName;
        price := UnitPrice(candy.price, divider);
        whitelistPrice := UnitPrice(candy.price, divider);
      } else {
        price := UnitPrice(candy.price, LAMPORTS_PER_SOL);
        whitelistPrice := UnitPrice(candy.price, LAMPORTS_PER_SOL);
      }

      if candy.whitelistMintSettings.Some? {
        whitelistEnabled := true;
        // The BN discount is a different object from `candy.state.price`, so `!==` holds for every non-null one.
        var discount := candy.whitelistMintSettings.value.discountPrice;
        if discount.Some? {
          if candy.tokenMint.Some? {
            whitelistPrice := UnitPrice(discount.value, divider);
          } else {
            whitelistPrice := UnitPrice(discount.value, LAMPORTS_PER_SOL);
          }
        }
      } else {
        whitelistEnabled := false;
      }
    }

    /** The whitelist part of the refresh, run when a wallet is connected. */
    method RefreshWhitelistBalance(walletCandy: CandyState, whitelistBalance: Option<real>)
      modifies this`whitelistTokenBalance, this`isActive
      ensures if walletCandy.whitelistMintSettings.Some?
              then whitelistTokenBalance == whitelistBalance.GetOr(0.0) && (isActive <==> whitelistTokenBalance > 0.0)
              else whitelistTokenBalance == old(whitelistTokenBalance) && isActive == old(isActive)
    {
      if walletCandy.whitelistMintSettings.Some? {
        var balance := whitelistBalance.GetOr(0.0);
        whitelistTokenBalance := balance;
        isActive := balance > 0.0;
      }
    }

    /** `setLastMintTime`: record the time and the wallet, only when a wallet is connected. */
    method SetLastMintTime(wallet: Option<PublicKey>, now: int)
      modifies this`lastMintTime, this`lastMintAccount
      ensures wallet.Some? ==> lastMintTime == Some(now) && lastMintAccount == wallet
      ensures wallet.None? ==> lastMintTime == old(lastMintTime) && lastMintAccount == old(lastMintAccount)
    {
      if wallet.Some? {
        lastMintTime := Some(now);
        lastMintAccount := wallet;
      }
    }

    /** `displaySuccess`: the local counters after a confirmed mint. */
    method DisplaySuccess()
      modifies this`itemsRemaining, this`itemsRedeemed, this`isSoldOut, this`whitelistTokenBalance, this`isActive
      ensures CurrentCounters() == AfterSuccess(old(CurrentCounters()))
    {
      var remaining := itemsRemaining - 1;
      itemsRemaining := remaining;
      isSoldOut := remaining == 0;
      if whitelistTokenBalance > 0.0 {
        var balance := whitelistTokenBalance - 1.0;
        whitelistTokenBalance := balance;
        isActive := balance > 0.0;
      }
      itemsRedeemed := itemsRedeemed + 1;
    }

    /**
     * `onMint`, given how the attempt ended. Nothing is attempted without a wallet
     * or a loaded machine; a confirmed mint settles the counters, the cooldown
     * record and the owned count; a failed one only raises an alert.
     */
    method OnMint(wallet: Option<PublicKey>, outcome: MintOutcome, now: int)
      modifies this`isMinting, this`isLoading, this`alertState, this`lastMintTime, this`lastMintAccount
      modifies this`itemsRemaining, this`itemsRedeemed, this`isSoldOut, this`whitelistTokenBalance, this`isActive
      modifies this`tooManyTokens
      ensures !isMinting && !isLoading
      ensures var attempted := wallet.Some? && candyMachine.Some?;
              if attempted && Succeeded(outcome) then
                && CurrentCounters() == AfterSuccess(old(CurrentCounters()))
                && tooManyTokens == old(tooManyTokens) + 1
                && lastMintTime == Some(now) && lastMintAccount == wallet
                && alertState == AlertState(true, MINT_SUCCEEDED, Success)
              else
                && CurrentCounters() == old(CurrentCounters())
                && tooManyTokens == old(tooManyTokens)
                && lastMintTime == old(lastMintTime) && lastMintAccount == old(lastMintAccount)
                && alertState == (if !attempted then old(alertState)
                                  else if outcome.Threw? then AlertState(true, Classify(outcome.error), Error)
                                  else AlertState(true, MINT_FAILED, Error))
    {
      isMinting := true;
      isLoading := true;
      if wallet.Some? && candyMachine.Some? {
        match outcome {
          case Threw(error) =>
            alertState := AlertState(true, Classify(error), Error);
          case NoTransactionId =>
            alertState := AlertState(true, MINT_FAILED, Error);
          case Confirmed(err) =>
            if err != Some(true) {
              alertState := AlertState(true, MINT_SUCCEEDED, Success);
              SetLastMintTime(wallet, now);
              DisplaySuccess();
              tooManyTokens := tooManyTokens + 1;
            } else {
              alertState := AlertState(true, MINT_FAILED, Error);
            }
        }
      }
      isMinting := false;
      isLoading := false;
    }

    /**
     * The ownership effect: scan the connected wallet for the collection and keep
     * the count, reading the scan's fallback as a count (the corrected reading).
     */
    method RefreshOwnership(ledger: Ledger, derive: PublicKey -> PublicKey,
                            deserialize: seq<bv8> -> Option<Metadata>,
                            wallet: PublicKey, authority: PublicKey, collectionName: string)
      modifies this`tooManyTokens
      ensures var count := WalletCount(ledger, derive, deserialize, wallet, [Filter(authority, collectionName)]);
              && (count.Some? ==> tooManyTokens == count.value)
              && (count.None? ==> tooManyTokens == FALLBACK_COUNT)
      ensures ButtonProps(true).tooManyTokens <==>
                WalletCount(ledger, derive, deserialize, wallet, [Filter(authority, collectionName)]) != Some(0)
    {
      var filters := [Filter(authority, collectionName)];
      var nftNum := GetAllCollectibles(ledger, derive, deserialize, [wallet], filters);
      ScanFailureLimits(ledger, derive, deserialize, wallet, filters);
      tooManyTokens := OwnedCount(nftNum);
    }
  }
}

/**
 * The gate in front of the submission payload: the wizard only builds the
 * formatted submission once the payment currency and the auction token have
 * resolved, no validation is running and the form is valid. Until then the
 * payload is absent, which means "not ready yet" rather than an error.
 *
 * The token lookups are parameters (`C` is the type of a payment currency,
 * `T` that of a looked-up token), and the validity flag of the form is the
 * schema's verdict on the current values. The formatting itself is not part
 * of this model: a ready result carries the three values it is applied to.
 */
module FormattedData {
  import opened Options
  import opened AuctionSchema

  const AddressZero: string := "0x0000000000000000000000000000000000000000"

  /**
   * The token the auction sells: one looked up by its address, or the
   * description of a token still to be created (built on chain 1 at the zero
   * address with 18 decimals, whatever the connected chain is).
   */
  datatype AuctionToken<T> =
    | Provided(token: T)
    | Created(chainId: int, address: string, decimals: int, symbol: Option<string>, name: Option<string>)

  /** What the payload is built from once everything is ready. */
  datatype Submission<C, T> = Submission(data: AuctionInput, paymentToken: C, auctionToken: AuctionToken<T>)

  /** The payment currency: the token at the given address, or else the chain's native currency. */
  function PaymentToken<C>(i: AuctionInput, lookupCurrency: string -> Option<C>, native: Option<C>): (payment: Option<C>) {
    match i.paymentCurrencyAddress
    case None => native
    case Some(address) => if lookupCurrency(address).Some? then lookupCurrency(address) else native
  }

  /** The provided token is looked up only when the form provides one. */
  function ProvidedAuctionToken<T>(i: AuctionInput, lookupToken: string -> Option<T>): (provided: Option<T>) {
    if i.tokenSetupType == Some(Provide) && i.tokenAddress.Some? then lookupToken(i.tokenAddress.value)
    else None
  }

  /** The created token is always built from the name and symbol fields, given or not. */
  function CreatedAuctionToken<T>(i: AuctionInput): (created: AuctionToken<T>) {
    Created(1, AddressZero, 18, i.tokenSymbol, i.tokenName)
  }

  /** The token the form's setup type selects, if it has resolved. */
  function ChosenAuctionToken<T>(i: AuctionInput, lookupToken: string -> Option<T>): (chosen: Option<AuctionToken<T>>) {
    if i.tokenSetupType == Some(Provide) then
      match ProvidedAuctionToken(i, lookupToken)
      case None => None
      case Some(token) => Some(Provided(token))
    else Some(CreatedAuctionToken(i))
  }

  /** The payload the wizard builds, or `None` while it is not ready. */
  function Formatted<C, T>(
    i: AuctionInput, ctx: Context, isValidating: bool,
    lookupCurrency: string -> Option<C>, native: Option<C>, lookupToken: string -> Option<T>
  ): (submission: Option<Submission<C, T>>)
  {
    var payment := PaymentToken(i, lookupCurrency, native);
    var auctionToken := ChosenAuctionToken(i, lookupToken);
    if payment.Some? && !isValidating && Valid(i, ctx) && auctionToken.Some? then
      Some(Submission(i, payment.value, auctionToken.value))
    else None
  }

  /**
   * The payload is there exactly when the payment currency resolved, no
   * validation is running, the form is valid and, for a provided token, the
   * lookup of its address succeeded.
   */
  lemma FormattedIffReady<C, T>(
    i: AuctionInput, ctx: Context, isValidating: bool,
    lookupCurrency: string -> Option<C>, native: Option<C>, lookupToken: string -> Option<T>)
    ensures Formatted(i, ctx, isValidating, lookupCurrency, native, lookupToken).Some? <==>
      && PaymentToken(i, lookupCurrency, native).Some?
      && !isValidating
      && Valid(i, ctx)
      && (i.tokenSetupType == Some(Provide) ==>
            i.tokenAddress.Some? && lookupToken(i.tokenAddress.value).Some?)
  {
  }

  /**
   * A ready payload carries the form's own values, a resolved payment
   * currency, and the token its setup type selects: the looked-up token at the
   * form's valid address, or the token to be created from the form's name and
   * symbol.
   */
  lemma FormattedCarriesChosenToken<C, T>(
    i: AuctionInput, ctx: Context, isValidating: bool,
    lookupCurrency: string -> Option<C>, native: Option<C>, lookupToken: string -> Option<T>)
    requires Formatted(i, ctx, isValidating, lookupCurrency, native, lookupToken).Some?
    ensures var s := Formatted(i, ctx, isValidating, lookupCurrency, native, lookupToken).value;
      && s.data == i
      && Some(s.paymentToken) == PaymentToken(i, lookupCurrency, native)
      && (i.tokenSetupType == Some(Provide) ==>
            && i.tokenAddress.Some? && ctx.isAddress(i.tokenAddress.value)
            && s.auctionToken == Provided(lookupToken(i.tokenAddress.value).value))
      && (i.tokenSetupType == Some(Create) ==>
            s.auctionToken == Created(1, AddressZero, 18, i.tokenSymbol, i.tokenName))
  {
  }

  /**
   * A token to be created never holds the payload back: with the payment
   * currency resolved, no validation running and a valid form, the payload is
   * there.
   */
  lemma CreatedTokenNeverBlocks<C, T>(
    i: AuctionInput, ctx: Context,
    lookupCurrency: string -> Option<C>, native: Option<C>, lookupToken: string -> Option<T>)
    requires i.tokenSetupType == Some(Create)
    requires PaymentToken(i, lookupCurrency, native).Some? && Valid(i, ctx)
    ensures Formatted(i, ctx, false, lookupCurrency, native, lookupToken).Some?
  {
  }

  /** While a validation runs, the payload is absent whatever the form holds. */
  lemma NotReadyWhileValidating<C, T>(
    i: AuctionInput, ctx: Context,
    lookupCurrency: string -> Option<C>, native: Option<C>, lookupToken: string -> Option<T>)
    ensures Formatted(i, ctx, true, lookupCurrency, native, lookupToken) == None
  {
  }
}

/**
 * The validation rules of the auction-creation form.
 *
 * Every field of the form is an `Option`: `None` is a field the form holds as
 * undefined. Numbers are `real`, as the form holds JavaScript numbers; where
 * the schema asks for a whole number that is the explicit predicate
 * `IsInteger`. Dates are timestamps.
 *
 * The schema's rules become one predicate per field, each stating only the
 * rule the schema attaches to that field (with the `when` branch on
 * `tokenSetupType` or `auctionType` written out as an implication), and the
 * form is valid when every field is. The conventions of the schema library
 * that the rules rely on are kept: a number rule that is neither `required`
 * nor a custom test passes on an undefined field; a custom test runs on an
 * undefined field too, where every comparison with undefined is false; a
 * required string must be non-empty.
 */
module AuctionSchema {
  import opened Options

  /** Whether the auction sells an existing token or creates a new one. */
  datatype TokenSetup = Provide | Create

  /** The sale mechanism of the auction. */
  datatype AuctionTemplate = Crowdsale | DutchAuction | BatchAuction

  /** One whitelisted participant and its allocation; the schema puts no rule on it. */
  datatype WhitelistEntry = WhitelistEntry(account: string, amount: string)

  /** The values of the form, field by field. */
  datatype AuctionInput = AuctionInput(
    paymentCurrencyAddress: Option<string>,
    startDate: Option<int>,
    endDate: Option<int>,
    tokenType: Option<real>,
    tokenSetupType: Option<TokenSetup>,
    tokenAddress: Option<string>,
    tokenName: Option<string>,
    tokenSymbol: Option<string>,
    tokenSupply: Option<real>,
    tokenAmount: Option<real>,
    tokenForLiquidity: Option<real>,
    auctionType: Option<AuctionTemplate>,
    fixedPrice: Option<real>,
    minimumTarget: Option<real>,
    minimumRaised: Option<real>,
    startPrice: Option<real>,
    endPrice: Option<real>,
    liqLockTime: Option<real>,
    liqPercentage: Option<real>,
    whitelistEnabled: bool,
    whitelistAddresses: seq<WhitelistEntry>
  )

  /**
   * What the rules depend on outside the form: the instant at which the
   * schema was built (the earliest start date it admits is fixed then, not at
   * each validation) and the address check the schema imports.
   */
  datatype Context = Context(schemaCreatedAt: int, isAddress: string -> bool)

  /** The fields that carry a rule, in the order the schema lists them. */
  datatype Field =
    | PaymentCurrencyAddress | StartDate | EndDate | TokenSetupType | TokenAddress
    | TokenType | TokenName | TokenSymbol | TokenSupply | TokenAmount
    | TokenForLiquidity | AuctionType | FixedPrice | MinimumTarget | MinimumRaised
    | StartPrice | EndPrice | LiqPercentage

  const AllFields: seq<Field> := [
    PaymentCurrencyAddress, StartDate, EndDate, TokenSetupType, TokenAddress,
    TokenType, TokenName, TokenSymbol, TokenSupply, TokenAmount,
    TokenForLiquidity, AuctionType, FixedPrice, MinimumTarget, MinimumRaised,
    StartPrice, EndPrice, LiqPercentage
  ]

  predicate IsInteger(x: real) {
    x.Floor as real == x
  }

  function Pow(base: nat, exp: nat): (power: nat) {
    if exp == 0 then 1 else base * Pow(base, exp - 1)
  }

  /**
   * The upper bound on the supply of a created token, as the schema writes it:
   * `2e256 - 1`, which in JavaScript's double arithmetic is 2e256 itself, the
   * double nearest 2 * 10^256 (and nowhere near 2^256 - 1). The model takes
   * it as exactly 2 * 10^256.
   */
  const SupplyCap: int := 2 * Pow(10, 256)

  /** A required string: present and non-empty. */
  predicate RequiredString(s: Option<string>) {
    s.Some? && |s.value| > 0
  }

  /** A required address: present, non-empty and accepted by the address check. */
  predicate RequiredAddress(s: Option<string>, ctx: Context) {
    RequiredString(s) && ctx.isAddress(s.value)
  }

  predicate PaymentCurrencyAddressValid(i: AuctionInput, ctx: Context) {
    RequiredAddress(i.paymentCurrencyAddress, ctx)
  }

  /** Required, and not earlier than the instant the schema was built. */
  predicate StartDateValid(i: AuctionInput, ctx: Context) {
    match i.startDate
    case None => false
    case Some(start) => start >= ctx.schemaCreatedAt
  }

  /** Required, and not earlier than the start date (a date equal to it passes). */
  predicate EndDateValid(i: AuctionInput) {
    match i.endDate
    case None => false
    case Some(end) => i.startDate.Some? && end >= i.startDate.value
  }

  predicate TokenSetupTypeValid(i: AuctionInput) {
    i.tokenSetupType.Some?
  }

  predicate TokenAddressValid(i: AuctionInput, ctx: Context) {
    i.tokenSetupType == Some(Provide) ==> RequiredAddress(i.tokenAddress, ctx)
  }

  predicate TokenTypeValid(i: AuctionInput) {
    i.tokenSetupType == Some(Create) ==> i.tokenType.Some?
  }

  predicate TokenNameValid(i: AuctionInput) {
    i.tokenSetupType == Some(Create) ==> RequiredString(i.tokenName)
  }

  predicate TokenSymbolValid(i: AuctionInput) {
    i.tokenSetupType == Some(Create) ==> RequiredString(i.tokenSymbol)
  }

  predicate TokenSupplyValid(i: AuctionInput) {
    i.tokenSetupType == Some(Create) ==>
      match i.tokenSupply
      case None => false
      case Some(supply) => 0.0 < supply && supply <= SupplyCap as real && IsInteger(supply)
  }

  /**
   * The custom test on the amount for sale: it passes outright when an
   * existing token is provided; otherwise the amount must be non-zero and at
   * most half the supply (false when either is undefined).
   */
  predicate HalfSupplyTest(i: AuctionInput) {
    if i.tokenSetupType == Some(Provide) then true
    else match i.tokenAmount
      case None => false
      case Some(amount) => amount != 0.0 && i.tokenSupply.Some? && amount * 2.0 <= i.tokenSupply.value
  }

  predicate TokenAmountValid(i: AuctionInput) {
    match i.tokenAmount
    case None => false
    case Some(amount) => 0.0 < amount && IsInteger(amount) && HalfSupplyTest(i)
  }

  /**
   * Required whole number; two custom tests: at least one percent of the amount
   * for sale (`value * 100 >= tokenAmount`) and at most the amount for sale.
   */
  predicate TokenForLiquidityValid(i: AuctionInput) {
    match i.tokenForLiquidity
    case None => false
    case Some(liquidity) =>
      IsInteger(liquidity) && i.tokenAmount.Some?
      && liquidity * 100.0 >= i.tokenAmount.value
      && liquidity <= i.tokenAmount.value
  }

  predicate AuctionTypeValid(i: AuctionInput) {
    i.auctionType.Some?
  }

  predicate FixedPriceValid(i: AuctionInput) {
    i.auctionType == Some(Crowdsale) ==> i.fixedPrice.Some?
  }

  /** For a crowdsale, a whole number in (0, 100] when given; it is not required. */
  predicate MinimumTargetValid(i: AuctionInput) {
    i.auctionType == Some(Crowdsale) ==>
      match i.minimumTarget
      case None => true
      case Some(target) => 0.0 < target && target <= 100.0 && IsInteger(target)
  }

  /** For a batch auction, not negative when given; it is not required. */
  predicate MinimumRaisedValid(i: AuctionInput) {
    i.auctionType == Some(BatchAuction) ==>
      match i.minimumRaised
      case None => true
      case Some(raised) => raised >= 0.0
  }

  predicate StartPriceValid(i: AuctionInput) {
    i.auctionType == Some(DutchAuction) ==> i.startPrice.Some?
  }

  predicate EndPriceValid(i: AuctionInput) {
    i.auctionType == Some(DutchAuction) ==>
      match i.endPrice
      case None => false
      case Some(end) => i.startPrice.Some? && end < i.startPrice.value
  }

  predicate LiqPercentageValid(i: AuctionInput) {
    match i.liqPercentage
    case None => false
    case Some(percentage) => 0.0 < percentage && percentage <= 100.0 && IsInteger(percentage)
  }

  /** The rule of one field. */
  predicate FieldValid(f: Field, i: AuctionInput, ctx: Context) {
    match f
    case PaymentCurrencyAddress => PaymentCurrencyAddressValid(i, ctx)
    case StartDate => StartDateValid(i, ctx)
    case EndDate => EndDateValid(i)
    case TokenSetupType => TokenSetupTypeValid(i)
    case TokenAddress => TokenAddressValid(i, ctx)
    case TokenType => TokenTypeValid(i)
    case TokenName => TokenNameValid(i)
    case TokenSymbol => TokenSymbolValid(i)
    case TokenSupply => TokenSupplyValid(i)
    case TokenAmount => TokenAmountValid(i)
    case TokenForLiquidity => TokenForLiquidityValid(i)
    case AuctionType => AuctionTypeValid(i)
    case FixedPrice => FixedPriceValid(i)
    case MinimumTarget => MinimumTargetValid(i)
    case MinimumRaised => MinimumRaisedValid(i)
    case StartPrice => StartPriceValid(i)
    case EndPrice => EndPriceValid(i)
    case LiqPercentage => LiqPercentageValid(i)
  }

  /** The whole form is valid: the conjunction of the schema's rules. */
  predicate Valid(i: AuctionInput, ctx: Context) {
    && PaymentCurrencyAddressValid(i, ctx)
    && StartDateValid(i, ctx)
    && EndDateValid(i)
    && TokenSetupTypeValid(i)
    && TokenAddressValid(i, ctx)
    && TokenTypeValid(i)
    && TokenNameValid(i)
    && TokenSymbolValid(i)
    && TokenSupplyValid(i)
    && TokenAmountValid(i)
    && TokenForLiquidityValid(i)
    && AuctionTypeValid(i)
    && FixedPriceValid(i)
    && MinimumTargetValid(i)
    && MinimumRaisedValid(i)
    && StartPriceValid(i)
    && EndPriceValid(i)
    && LiqPercentageValid(i)
  }

  /** The fields of `fields` whose rule fails, in order. */
  function Failing(fields: seq<Field>, i: AuctionInput, ctx: Context): (failing: seq<Field>)
    ensures |failing| <= |fields|
  {
    if fields == [] then []
    else if FieldValid(fields[0], i, ctx) then Failing(fields[1..], i, ctx)
    else [fields[0]] + Failing(fields[1..], i, ctx)
  }

  /** The per-field report of a validation pass: every field whose rule fails. */
  function Errors(i: AuctionInput, ctx: Context): (errors: seq<Field>) {
    Failing(AllFields, i, ctx)
  }

  // ---------------------------------------------------------------------------
  // The aggregate verdict and the per-field report agree
  // ---------------------------------------------------------------------------

  lemma AllFieldsListed(f: Field)
    ensures f in AllFields
  {
  }

  lemma {:induction false} FailingMembers(fields: seq<Field>, i: AuctionInput, ctx: Context, f: Field)
    ensures f in Failing(fields, i, ctx) <==> f in fields && !FieldValid(f, i, ctx)
  {
    if fields != [] {
      FailingMembers(fields[1..], i, ctx, f);
      assert fields == [fields[0]] + fields[1..];
    }
  }

  /** An invalid form has a field whose rule fails. */
  lemma InvalidHasFailingField(i: AuctionInput, ctx: Context)
    requires !Valid(i, ctx)
    ensures exists f: Field :: !FieldValid(f, i, ctx)
  {
    if !PaymentCurrencyAddressValid(i, ctx) {
      assert !FieldValid(PaymentCurrencyAddress, i, ctx);
    } else if !StartDateValid(i, ctx) {
      assert !FieldValid(StartDate, i, ctx);
    } else if !EndDateValid(i) {
      assert !FieldValid(EndDate, i, ctx);
    } else if !TokenSetupTypeValid(i) {
      assert !FieldValid(TokenSetupType, i, ctx);
    } else if !TokenAddressValid(i, ctx) {
      assert !FieldValid(TokenAddress, i, ctx);
    } else if !TokenTypeValid(i) {
      assert !FieldValid(TokenType, i, ctx);
    } else if !TokenNameValid(i) {
      assert !FieldValid(TokenName, i, ctx);
    } else if !TokenSymbolValid(i) {
      assert !FieldValid(TokenSymbol, i, ctx);
    } else if !TokenSupplyValid(i) {
      assert !FieldValid(TokenSupply, i, ctx);
    } else if !TokenAmountValid(i) {
      assert !FieldValid(TokenAmount, i, ctx);
    } else if !TokenForLiquidityValid(i) {
      assert !FieldValid(TokenForLiquidity, i, ctx);
    } else if !AuctionTypeValid(i) {
      assert !FieldValid(AuctionType, i, ctx);
    } else if !FixedPriceValid(i) {
      assert !FieldValid(FixedPrice, i, ctx);
    } else if !MinimumTargetValid(i) {
      assert !FieldValid(MinimumTarget, i, ctx);
    } else if !MinimumRaisedValid(i) {
      assert !FieldValid(MinimumRaised, i, ctx);
    } else if !StartPriceValid(i) {
      assert !FieldValid(StartPrice, i, ctx);
    } else if !EndPriceValid(i) {
      assert !FieldValid(EndPrice, i, ctx);
    } else {
      assert !FieldValid(LiqPercentage, i, ctx);
    }
  }

  /** The form is valid exactly when every field's rule holds. */
  lemma ValidIffEveryField(i: AuctionInput, ctx: Context)
    ensures Valid(i, ctx) <==> forall f: Field :: FieldValid(f, i, ctx)
  {
    if !Valid(i, ctx) {
      InvalidHasFailingField(i, ctx);
    }
  }

  /** The aggregate flag and the per-field report never disagree. */
  lemma ValidIffNoErrors(i: AuctionInput, ctx: Context)
    ensures Valid(i, ctx) <==> Errors(i, ctx) == []
  {
    ValidIffEveryField(i, ctx);
    if Errors(i, ctx) == [] {
      forall f: Field ensures FieldValid(f, i, ctx) {
        AllFieldsListed(f);
        FailingMembers(AllFields, i, ctx, f);
      }
    } else {
      FailingMembers(AllFields, i, ctx, Errors(i, ctx)[0]);
    }
  }
}

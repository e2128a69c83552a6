/**
 * What the auction-creation schema guarantees, stated field by field and about
 * the form as a whole.
 */
module SchemaProperties {
  import opened Options
  import opened AuctionSchema

  lemma {:induction false} PowPositive(base: nat, n: nat)
    requires 0 < base
    ensures 0 < Pow(base, n)
  {
    if n > 0 {
      PowPositive(base, n - 1);
    }
  }

  lemma {:induction false} PowMonotoneInBase(a: nat, b: nat, n: nat)
    requires a <= b
    ensures Pow(a, n) <= Pow(b, n)
  {
    if n > 0 {
      PowMonotoneInBase(a, b, n - 1);
      assert a * Pow(a, n - 1) <= b * Pow(a, n - 1) <= b * Pow(b, n - 1);
    }
  }

  // ---------------------------------------------------------------------------
  // The token being sold
  // ---------------------------------------------------------------------------

  /** With an existing token, the half-supply test passes whatever the supply is. */
  lemma HalfSupplyIgnoredWhenProvided(i: AuctionInput, supply: Option<real>)
    requires i.tokenSetupType == Some(Provide)
    ensures HalfSupplyTest(i.(tokenSupply := supply))
    ensures TokenAmountValid(i.(tokenSupply := supply)) == TokenAmountValid(i)
  {
  }

  /**
   * Otherwise the amount for sale must be a whole number from one up to half of
   * a supply that is given.
   */
  lemma HalfSupplyWhenNotProvided(i: AuctionInput)
    requires i.tokenSetupType != Some(Provide)
    ensures TokenAmountValid(i) <==>
      && i.tokenAmount.Some? && i.tokenSupply.Some? && IsInteger(i.tokenAmount.value)
      && 1.0 <= i.tokenAmount.value <= i.tokenSupply.value / 2.0
  {
  }

  /** With a supply of 1000, an amount of 501 is refused and one of 500 accepted. */
  lemma HalfSupplyExamples(i: AuctionInput)
    requires i.tokenSetupType == Some(Create) && i.tokenSupply == Some(1000.0)
    ensures !TokenAmountValid(i.(tokenAmount := Some(501.0)))
    ensures TokenAmountValid(i.(tokenAmount := Some(500.0)))
  {
  }

  /**
   * The tokens kept for liquidity are a whole number between one percent of
   * the amount for sale and the amount for sale itself, both included.
   */
  lemma LiquidityBetweenOneAndHundredPercent(i: AuctionInput)
    ensures TokenForLiquidityValid(i) <==>
      && i.tokenForLiquidity.Some? && i.tokenAmount.Some? && IsInteger(i.tokenForLiquidity.value)
      && i.tokenAmount.value / 100.0 <= i.tokenForLiquidity.value <= i.tokenAmount.value
  {
  }

  /** For 1000 tokens for sale: 9 and 1001 are refused, 10 and 1000 accepted. */
  lemma LiquidityExamples(i: AuctionInput)
    requires i.tokenAmount == Some(1000.0)
    ensures !TokenForLiquidityValid(i.(tokenForLiquidity := Some(9.0)))
    ensures TokenForLiquidityValid(i.(tokenForLiquidity := Some(10.0)))
    ensures TokenForLiquidityValid(i.(tokenForLiquidity := Some(1000.0)))
    ensures !TokenForLiquidityValid(i.(tokenForLiquidity := Some(1001.0)))
  {
  }

  /** Because the amount for sale is positive, at least one token seeds liquidity. */
  lemma LiquidityAtLeastOneToken(i: AuctionInput)
    requires TokenAmountValid(i) && TokenForLiquidityValid(i)
    ensures 1.0 <= i.tokenForLiquidity.value
  {
  }

  /** The token fields that only a created token needs are free otherwise. */
  lemma CreationFieldsFreeUnlessCreating(
    i: AuctionInput, tokenType: Option<real>, name: Option<string>, symbol: Option<string>, supply: Option<real>)
    requires i.tokenSetupType != Some(Create)
    ensures
      var j := i.(tokenType := tokenType, tokenName := name, tokenSymbol := symbol, tokenSupply := supply);
      TokenTypeValid(j) && TokenNameValid(j) && TokenSymbolValid(j) && TokenSupplyValid(j)
  {
  }

  /** The token address is free unless an existing token is provided. */
  lemma TokenAddressFreeUnlessProviding(i: AuctionInput, ctx: Context, address: Option<string>)
    requires i.tokenSetupType != Some(Provide)
    ensures TokenAddressValid(i.(tokenAddress := address), ctx)
  {
  }

  /**
   * A valid form that creates a token names it, gives it a symbol and a type,
   * and a whole-number supply from 1 up to the cap.
   */
  lemma CreatedTokenFields(i: AuctionInput, ctx: Context)
    requires Valid(i, ctx) && i.tokenSetupType == Some(Create)
    ensures i.tokenType.Some?
    ensures i.tokenName.Some? && |i.tokenName.value| > 0
    ensures i.tokenSymbol.Some? && |i.tokenSymbol.value| > 0
    ensures i.tokenSupply.Some? && IsInteger(i.tokenSupply.value)
    ensures 1.0 <= i.tokenSupply.value <= SupplyCap as real
  {
  }

  /** A valid form that provides a token gives an address the address check accepts. */
  lemma ProvidedTokenAddress(i: AuctionInput, ctx: Context)
    requires Valid(i, ctx) && i.tokenSetupType == Some(Provide)
    ensures i.tokenAddress.Some? && |i.tokenAddress.value| > 0
    ensures ctx.isAddress(i.tokenAddress.value)
  {
  }

  /**
   * The payment currency address is required whatever the setup and the sale
   * mechanism: a valid form has a non-empty one that the address check accepts,
   * and a form without one is invalid.
   */
  lemma PaymentCurrencyAddressRequired(i: AuctionInput, ctx: Context)
    ensures Valid(i, ctx) ==>
      i.paymentCurrencyAddress.Some? && |i.paymentCurrencyAddress.value| > 0
      && ctx.isAddress(i.paymentCurrencyAddress.value)
    ensures !Valid(i.(paymentCurrencyAddress := None), ctx)
    ensures !Valid(i.(paymentCurrencyAddress := Some("")), ctx)
  {
  }

  /** The cap as written lies above 2^256, the number of values a 256-bit word holds. */
  lemma SupplyCapAboveUint256()
    ensures 0 < Pow(2, 256) < SupplyCap
  {
    PowPositive(2, 256);
    PowMonotoneInBase(2, 10, 256);
  }

  /** So a supply of 2^256, one more than the largest 256-bit value, passes the rule as written. */
  lemma Uint256OverflowingSupplyAccepted(i: AuctionInput)
    requires i.tokenSetupType == Some(Create) && i.tokenSupply == Some(Pow(2, 256) as real)
    ensures TokenSupplyValid(i)
  {
    SupplyCapAboveUint256();
    assert (Pow(2, 256) as real).Floor == Pow(2, 256);
  }

  // ---------------------------------------------------------------------------
  // The sale mechanism
  // ---------------------------------------------------------------------------

  /** A Dutch auction needs both prices, and the price must strictly fall. */
  lemma DutchPricesStrictlyFall(i: AuctionInput)
    requires i.auctionType == Some(DutchAuction)
    ensures StartPriceValid(i) && EndPriceValid(i) <==>
      i.startPrice.Some? && i.endPrice.Some? && i.endPrice.value < i.startPrice.value
  {
  }

  /** Start price 10: an end price of 10 is refused, one of 9 accepted. */
  lemma DutchPriceExamples(i: AuctionInput)
    requires i.auctionType == Some(DutchAuction) && i.startPrice == Some(10.0)
    ensures !EndPriceValid(i.(endPrice := Some(10.0)))
    ensures EndPriceValid(i.(endPrice := Some(9.0)))
  {
  }

  /** For any other sale mechanism neither price is constrained. */
  lemma PricesFreeOutsideDutch(i: AuctionInput, startPrice: Option<real>, endPrice: Option<real>)
    requires i.auctionType != Some(DutchAuction)
    ensures StartPriceValid(i.(startPrice := startPrice, endPrice := endPrice))
    ensures EndPriceValid(i.(startPrice := startPrice, endPrice := endPrice))
  {
  }

  /**
   * A crowdsale needs a fixed price: a valid crowdsale form has one. For any
   * other sale mechanism the fixed price is free.
   */
  lemma FixedPriceRule(i: AuctionInput, ctx: Context, price: Option<real>)
    ensures Valid(i, ctx) && i.auctionType == Some(Crowdsale) ==> i.fixedPrice.Some?
    ensures i.auctionType == Some(Crowdsale) ==> !FixedPriceValid(i.(fixedPrice := None))
    ensures i.auctionType != Some(Crowdsale) ==> FixedPriceValid(i.(fixedPrice := price))
  {
  }

  /**
   * For a crowdsale the minimum target may be left out; when given it is a
   * whole number from 1 to 100. For other mechanisms it is free.
   */
  lemma MinimumTargetRule(i: AuctionInput, target: real)
    ensures MinimumTargetValid(i.(minimumTarget := None))
    ensures i.auctionType == Some(Crowdsale) ==>
      (MinimumTargetValid(i.(minimumTarget := Some(target))) <==> IsInteger(target) && 1.0 <= target <= 100.0)
    ensures i.auctionType != Some(Crowdsale) ==> MinimumTargetValid(i.(minimumTarget := Some(target)))
  {
  }

  /**
   * For a batch auction the minimum amount raised may be left out; when given
   * it is not negative. For other mechanisms it is free.
   */
  lemma MinimumRaisedRule(i: AuctionInput, raised: real)
    ensures MinimumRaisedValid(i.(minimumRaised := None))
    ensures i.auctionType == Some(BatchAuction) ==>
      (MinimumRaisedValid(i.(minimumRaised := Some(raised))) <==> 0.0 <= raised)
    ensures i.auctionType != Some(BatchAuction) ==> MinimumRaisedValid(i.(minimumRaised := Some(raised)))
  {
  }

  /** The liquidity percentage is required, whatever the mechanism, and is a whole number from 1 to 100. */
  lemma LiqPercentageRange(i: AuctionInput)
    ensures LiqPercentageValid(i) <==>
      i.liqPercentage.Some? && IsInteger(i.liqPercentage.value) && 1.0 <= i.liqPercentage.value <= 100.0
  {
  }

  // ---------------------------------------------------------------------------
  // Dates
  // ---------------------------------------------------------------------------

  /** An end date equal to the start date passes: the lower bound is inclusive. */
  lemma EndDateMayEqualStartDate(i: AuctionInput, date: int)
    requires i.startDate == Some(date)
    ensures EndDateValid(i.(endDate := Some(date)))
    ensures !EndDateValid(i.(endDate := Some(date - 1)))
  {
  }

  /** A valid form starts no earlier than the schema was built and ends no earlier than it starts. */
  lemma ValidDatesOrdered(i: AuctionInput, ctx: Context)
    requires Valid(i, ctx)
    ensures i.startDate.Some? && i.endDate.Some?
    ensures ctx.schemaCreatedAt <= i.startDate.value <= i.endDate.value
  {
  }
}

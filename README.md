# Auction-creation wizard: validation rules and step controller

This project models the core of the MISO auction-creation wizard of a
decentralised-exchange web front end
(`src/features/miso/AuctionCreationWizard/index.tsx`):

- **The input validator.** The wizard's form schema is a set of rules over
  the form's values. Which fields are required depends on two discriminants:
  the token setup type (provide an existing token, or create one) and the
  auction type (crowdsale, Dutch auction, batch auction).
  `AuctionSchema` (`auction_schema.dfy`) models the form as the datatype
  `AuctionInput`. Every field is an `Option`, where `None` is an undefined
  field. Each rule of the schema is its own predicate (`TokenAmountValid`,
  `EndPriceValid`, ...). `Valid` is their conjunction. `Errors` lists the
  fields whose rule fails. `SchemaProperties` (`schema_properties.dfy`)
  proves what the rules guarantee.
- **The readiness gate of the submission payload.** `FormattedData`
  (`formatted_data.dfy`) models when the wizard builds its payload:
  - the payment currency has resolved;
  - no validation is running;
  - the form is valid;
  - the auction token chosen by the setup type has resolved.
  In every other case the payload is absent, which means "not ready".
- **The step controller.** `WizardSteps` (`wizard_steps.dfy`) models the six
  sections (Token Details, General Details, Auction Details, Liquidity
  Launcher, Whitelist, Review), selected by one step index.
  - The pure transition function `Next` and its fold `Run` are the
    specification.
  - The class `Wizard` holds the mutable `step` field. Its `PressContinue`
    and `PressBack` methods update `step` in place, as the component's
    `setStep(prev => prev + 1)` and `setStep(prev => prev - 1)` do.

## How the schema library's conventions are modelled

- A number rule that is neither `required` nor a custom `test` passes when
  the field is undefined. Examples are `moreThan`, `max`, `min` and
  `integer` on `minimumTarget` and `minimumRaised`.
- A custom `test` also runs when a field is undefined. In JavaScript every
  comparison with `undefined` is false. So the tests on `tokenAmount` and
  `tokenForLiquidity` fail when a value they compare against is missing.
- A required string must be non-empty.
- Numbers are modelled as `real`. "Whole number" is the explicit predicate
  `IsInteger`, so that rule is checked rather than built into a type.
  Dates are integer timestamps.
- The earliest allowed start date is `new Date()`, taken when the
  module-level schema object is built, not at each validation. It is the
  parameter `Context.schemaCreatedAt`.
- The imported address check is the parameter `Context.isAddress`.

## Where the schema's messages and its rules differ (the model follows the rules)

- **End date.** The message on the end-date rule (index.tsx:87) says the
  date "must be later than start date". The rule itself is
  `.min(yup.ref('startDate'))`, an inclusive minimum (`endDate >= startDate`),
  so an end date equal to the start date passes. See
  `EndDateMayEqualStartDate`.
- **Supply cap.** The message on the supply cap (index.tsx:113) says the
  supply "can be at most 2^256 - 1". The literal is `2e256 - 1`. As a
  JavaScript double this is the double nearest 2·10^256, far above
  2^256 − 1. So a supply of 2^256, which no 256-bit word can hold, passes.
  See `SupplyCapAboveUint256` and `Uint256OverflowingSupplyAccepted`.
- **Minimum target and minimum raised.** Neither `minimumTarget`
  (crowdsale) nor `minimumRaised` (batch auction) carries `.required()`
  (index.tsx:149-161), unlike the other fields their auction type asks for.
  The rules constrain them only when they are given. See
  `MinimumTargetRule` and `MinimumRaisedRule`.

## Model

| member | source | states |
|---|---|---|
| `AuctionSchema.PaymentCurrencyAddressValid` | src/features/miso/AuctionCreationWizard/index.tsx:78 | the payment currency address is required: given, non-empty and accepted by the address check |
| `AuctionSchema.StartDateValid` | src/features/miso/AuctionCreationWizard/index.tsx:79-83 | the start date is required and no earlier than the moment the schema was built |
| `AuctionSchema.EndDateValid` | src/features/miso/AuctionCreationWizard/index.tsx:84-88 | the end date is required and no earlier than the start date; with no start date it fails |
| `AuctionSchema.TokenSetupTypeValid` | src/features/miso/AuctionCreationWizard/index.tsx:89 | the token setup type is required |
| `AuctionSchema.TokenAddressValid` | src/features/miso/AuctionCreationWizard/index.tsx:90-93 | when an existing token is provided its address is required, non-empty and accepted by the address check; otherwise it is free |
| `AuctionSchema.TokenTypeValid` | src/features/miso/AuctionCreationWizard/index.tsx:94-97 | when a token is created its type is required; otherwise it is free |
| `AuctionSchema.TokenNameValid` | src/features/miso/AuctionCreationWizard/index.tsx:98-101 | when a token is created its name is required and non-empty; otherwise it is free |
| `AuctionSchema.TokenSymbolValid` | src/features/miso/AuctionCreationWizard/index.tsx:102-105 | when a token is created its symbol is required and non-empty; otherwise it is free |
| `AuctionSchema.TokenSupplyValid` | src/features/miso/AuctionCreationWizard/index.tsx:106-115 | when a token is created its supply is required, above 0, at most the cap and whole; otherwise it is free |
| `AuctionSchema.HalfSupplyTest` | src/features/miso/AuctionCreationWizard/index.tsx:122-128 | the custom test: passes for a provided token, else needs a non-zero amount at most half of a given supply |
| `AuctionSchema.TokenAmountValid` | src/features/miso/AuctionCreationWizard/index.tsx:116-128 | the amount for sale is required, above 0, whole, and passes the half-supply test |
| `AuctionSchema.TokenForLiquidityValid` | src/features/miso/AuctionCreationWizard/index.tsx:129-143 | the liquidity tokens are required, whole, at least 1% of the amount for sale and at most that amount; each test fails when the amount is missing |
| `AuctionSchema.AuctionTypeValid` | src/features/miso/AuctionCreationWizard/index.tsx:144 | the auction type is required |
| `AuctionSchema.FixedPriceValid` | src/features/miso/AuctionCreationWizard/index.tsx:145-148 | in a crowdsale the fixed price is required; otherwise it is free |
| `AuctionSchema.MinimumTargetValid` | src/features/miso/AuctionCreationWizard/index.tsx:149-157 | in a crowdsale a given minimum target is above 0, at most 100 and whole; an absent one passes; otherwise it is free |
| `AuctionSchema.MinimumRaisedValid` | src/features/miso/AuctionCreationWizard/index.tsx:158-161 | in a batch auction a given minimum raised is not negative; an absent one passes; otherwise it is free |
| `AuctionSchema.StartPriceValid` | src/features/miso/AuctionCreationWizard/index.tsx:162-165 | in a Dutch auction the start price is required; otherwise it is free |
| `AuctionSchema.EndPriceValid` | src/features/miso/AuctionCreationWizard/index.tsx:166-173 | in a Dutch auction the end price is required and strictly below the start price; otherwise it is free |
| `AuctionSchema.LiqPercentageValid` | src/features/miso/AuctionCreationWizard/index.tsx:176-182 | the liquidity percentage is required, above 0, at most 100 and whole, for every auction type |
| `AuctionSchema.FieldValid` | src/features/miso/AuctionCreationWizard/index.tsx:77-184 | the rule of one named field of the schema |
| `AuctionSchema.Valid` | src/features/miso/AuctionCreationWizard/index.tsx:77-184 | the schema accepts the form exactly when every one of its eighteen field rules holds |
| `AuctionSchema.Failing` | src/features/miso/AuctionCreationWizard/index.tsx:77-184 | the fields of a list whose rule fails, in order; never more than the list holds |
| `AuctionSchema.Errors` | src/features/miso/AuctionCreationWizard/index.tsx:77-184 | the fields of the schema whose rule fails, one entry per failing field |
| `AuctionSchema.ValidIffNoErrors` | src/features/miso/AuctionCreationWizard/index.tsx:77-184 | the aggregate verdict and the per-field error report agree: the form is valid exactly when no field's rule fails |
| `AuctionSchema.ValidIffEveryField` | src/features/miso/AuctionCreationWizard/index.tsx:77-184 | the form is valid exactly when every field's rule holds, so no rule is missing from the aggregate and none is added |
| `AuctionSchema.FailingMembers` | src/features/miso/AuctionCreationWizard/index.tsx:77-184 | a field is in the error report exactly when it is one of the checked fields and its rule fails |
| `SchemaProperties.HalfSupplyIgnoredWhenProvided` | src/features/miso/AuctionCreationWizard/index.tsx:122-128 | with an existing token, the half-supply test passes and the amount's verdict does not depend on the supply at all |
| `SchemaProperties.HalfSupplyWhenNotProvided` | src/features/miso/AuctionCreationWizard/index.tsx:116-128 | when no existing token is provided, the amount for sale is valid exactly when it is a whole number from 1 up to half of a given supply |
| `SchemaProperties.HalfSupplyExamples` | src/features/miso/AuctionCreationWizard/index.tsx:116-128 | with a created supply of 1000, an amount of 501 is refused and 500 accepted |
| `SchemaProperties.LiquidityBetweenOneAndHundredPercent` | src/features/miso/AuctionCreationWizard/index.tsx:129-143 | the liquidity tokens are valid exactly when they are a whole number between 1% and 100% of the amount for sale, bounds included; both directions are proved |
| `SchemaProperties.LiquidityExamples` | src/features/miso/AuctionCreationWizard/index.tsx:129-143 | with 1000 tokens for sale, 9 and 1001 are refused and 10 and 1000 are accepted |
| `SchemaProperties.LiquidityAtLeastOneToken` | src/features/miso/AuctionCreationWizard/index.tsx:116-143 | when both amount rules hold, at least one token seeds liquidity |
| `SchemaProperties.CreationFieldsFreeUnlessCreating` | src/features/miso/AuctionCreationWizard/index.tsx:94-115 | unless a token is created, the token type, name, symbol and supply rules hold whatever those fields contain |
| `SchemaProperties.TokenAddressFreeUnlessProviding` | src/features/miso/AuctionCreationWizard/index.tsx:90-93 | unless an existing token is provided, the token address is unconstrained |
| `SchemaProperties.CreatedTokenFields` | src/features/miso/AuctionCreationWizard/index.tsx:94-115 | a valid form that creates a token has a type, a non-empty name and symbol, and a whole-number supply from 1 up to the cap |
| `SchemaProperties.ProvidedTokenAddress` | src/features/miso/AuctionCreationWizard/index.tsx:90-93 | a valid form that provides a token has a non-empty address that the address check accepts |
| `SchemaProperties.SupplyCapAboveUint256` | src/features/miso/AuctionCreationWizard/index.tsx:113 | the cap as written (2·10^256) lies strictly above 2^256 |
| `SchemaProperties.Uint256OverflowingSupplyAccepted` | src/features/miso/AuctionCreationWizard/index.tsx:106-115 | a created supply of 2^256, one past the largest 256-bit value, passes the supply rule as written |
| `SchemaProperties.DutchPricesStrictlyFall` | src/features/miso/AuctionCreationWizard/index.tsx:162-173 | in a Dutch auction both price rules hold exactly when both prices are given and the end price is strictly below the start price |
| `SchemaProperties.DutchPriceExamples` | src/features/miso/AuctionCreationWizard/index.tsx:166-173 | with start price 10, an end price of 10 is refused and one of 9 accepted |
| `SchemaProperties.PricesFreeOutsideDutch` | src/features/miso/AuctionCreationWizard/index.tsx:162-173 | for any other auction type both price rules hold whatever the prices are |
| `SchemaProperties.FixedPriceRule` | src/features/miso/AuctionCreationWizard/index.tsx:145-148 | a valid crowdsale form has a fixed price and one without it fails the rule; for any other auction type the fixed price is free |
| `SchemaProperties.PaymentCurrencyAddressRequired` | src/features/miso/AuctionCreationWizard/index.tsx:78 | a valid form has a non-empty payment currency address accepted by the address check; without one, or with an empty one, no form is valid |
| `SchemaProperties.MinimumTargetRule` | src/features/miso/AuctionCreationWizard/index.tsx:149-157 | the minimum target may be left out; when given in a crowdsale it is valid exactly when it is a whole number from 1 to 100; otherwise it is free |
| `SchemaProperties.MinimumRaisedRule` | src/features/miso/AuctionCreationWizard/index.tsx:158-161 | the minimum raised may be left out; when given in a batch auction it is valid exactly when it is not negative; otherwise it is free |
| `SchemaProperties.LiqPercentageRange` | src/features/miso/AuctionCreationWizard/index.tsx:176-182 | the liquidity percentage, for every auction type, is valid exactly when it is given as a whole number from 1 to 100 |
| `SchemaProperties.EndDateMayEqualStartDate` | src/features/miso/AuctionCreationWizard/index.tsx:84-88 | an end date equal to the start date passes and one a moment earlier is refused: the lower bound is inclusive |
| `SchemaProperties.ValidDatesOrdered` | src/features/miso/AuctionCreationWizard/index.tsx:79-88 | a valid form has both dates, starting no earlier than the schema was built and ending no earlier than it starts |
| `FormattedData.PaymentToken` | src/features/miso/AuctionCreationWizard/index.tsx:212 | the token at the payment currency address, or the chain's native currency when that lookup is absent |
| `FormattedData.ProvidedAuctionToken` | src/features/miso/AuctionCreationWizard/index.tsx:213 | the token looked up at the token address, only when the setup type provides one |
| `FormattedData.CreatedAuctionToken` | src/features/miso/AuctionCreationWizard/index.tsx:214 | the token to be created: chain 1, the zero address, 18 decimals, the form's symbol and name |
| `FormattedData.ChosenAuctionToken` | src/features/miso/AuctionCreationWizard/index.tsx:219-223 | the provided token when the setup type provides one, else the token to be created |
| `FormattedData.Formatted` | src/features/miso/AuctionCreationWizard/index.tsx:215-225 | the payload when payment currency, validation state, validity and chosen token are all in order, else absent |
| `FormattedData.FormattedIffReady` | src/features/miso/AuctionCreationWizard/index.tsx:215-225 | the payload exists exactly when the payment currency resolved, no validation runs, the form is valid and, for a provided token, its lookup succeeded |
| `FormattedData.FormattedCarriesChosenToken` | src/features/miso/AuctionCreationWizard/index.tsx:212-225 | a ready payload carries the form's values, the resolved payment currency, and the token the setup type selects: the looked-up token at a valid address, or the token to be created (chain 1, zero address, 18 decimals, the form's symbol and name) |
| `FormattedData.CreatedTokenNeverBlocks` | src/features/miso/AuctionCreationWizard/index.tsx:214-219 | a token to be created never holds the payload back once payment currency, validation and validity are in order |
| `FormattedData.NotReadyWhileValidating` | src/features/miso/AuctionCreationWizard/index.tsx:215-218 | while a validation runs the payload is absent, whatever the form holds |
| `WizardSteps.SectionAt` | src/features/miso/AuctionCreationWizard/index.tsx:229-346 | the section the stepper shows at each index: Token Details, General Details, Auction Details, Liquidity Launcher, Whitelist, Review |
| `WizardSteps.HasContinue` | src/features/miso/AuctionCreationWizard/index.tsx:236-334 | every section but Review shows a Continue button |
| `WizardSteps.HasBack` | src/features/miso/AuctionCreationWizard/index.tsx:263-343 | every section but Token Details shows a Back button |
| `WizardSteps.Advances` | src/features/miso/AuctionCreationWizard/index.tsx:236-334 | the number of presses on an enabled Continue button |
| `WizardSteps.Wizard.Current` | src/features/miso/AuctionCreationWizard/index.tsx:229 | the section on screen is the one at the current step index |
| `WizardSteps.IndexOf` | src/features/miso/AuctionCreationWizard/index.tsx:229-346 | each of the six sections has one position from 0 to 5, and the section shown at that position is that section |
| `WizardSteps.Next` | src/features/miso/AuctionCreationWizard/index.tsx:229-346 | a button press keeps the step index within 0 to 5 and moves it by at most one |
| `WizardSteps.Run` | src/features/miso/AuctionCreationWizard/index.tsx:229-346 | any series of presses from an index in 0 to 5 ends at an index in 0 to 5 |
| `WizardSteps.ForwardOnlyOnValidContinue` | src/features/miso/AuctionCreationWizard/index.tsx:236-265 | the step moves forward exactly on a Continue of a valid section before Review, and back exactly on Back after the first section |
| `WizardSteps.BackUndoesContinue` | src/features/miso/AuctionCreationWizard/index.tsx:236-265 | Back undoes a Continue that moved, and a valid Continue undoes a Back that moved |
| `WizardSteps.RunBoundedByAdvances` | src/features/miso/AuctionCreationWizard/index.tsx:229-346 | no section is skipped: after any series of presses the index is at most the start plus the number of valid Continue presses |
| `WizardSteps.ReviewNeedsFiveAdvances` | src/features/miso/AuctionCreationWizard/index.tsx:189-346 | from the initial index 0, reaching Review takes at least five valid Continue presses |
| `WizardSteps.FiveAdvancesReachReview` | src/features/miso/AuctionCreationWizard/index.tsx:189-346 | five valid Continue presses from index 0 do reach Review |
| `WizardSteps.Wizard.constructor` | src/features/miso/AuctionCreationWizard/index.tsx:189 | the wizard opens at index 0, on Token Details |
| `WizardSteps.Wizard.PressContinue` | src/features/miso/AuctionCreationWizard/index.tsx:236-241 | Continue updates the step in place as `Next` says, keeps it within 0 to 5, and reports whether it moved forward |
| `WizardSteps.Wizard.PressBack` | src/features/miso/AuctionCreationWizard/index.tsx:263-265 | Back updates the step in place as `Next` says, keeps it within 0 to 5, and reports whether it moved back |

## Left out

- `src/pages/analytics/user/index.tsx` is not part of this model. It consists of data-fetching hooks and rendering. Its yield and price figures are floating-point divisions over possibly missing fetched data.
- The address validator imported from `app/functions/yupValidators` is not part of this model. It is the parameter `Context.isAddress`.
- The start-date rule compares with a clock reading. That reading is the parameter `Context.schemaCreatedAt`; no clock is modelled.
- Type coercion by the schema library is not modelled. The form's strings are not parsed into numbers or dates, and an unparsable value does not raise a type error. The error message strings are left out too.
- JavaScript's double-precision arithmetic is not modelled. `value * 2 <= tokenSupply` and `value * 100 >= tokenAmount` are compared exactly. The cap `2e256 - 1`, as a double the one nearest 2·10^256, is taken as exactly 2·10^256. Doubles round both at that magnitude.
- Setup-type and auction-type codes outside their enumerations are not modelled. The schema only asks for a number there. Such a code would behave like an undefined field in every conditional rule but would pass `required`.
- `liqLockTime`, `liqLauncherEnabled` and `whitelistEnabled` are not modelled as rules. The schema only gives them a type, which the model's field types already ensure. The whitelist entries have no rule.
- `formatCreationFormData` is not part of this model, and neither are the token lookups (`useToken`) and the SDK's `Token`, `CurrencyAmount` and `Price` types. A ready payload holds the three arguments the formatter receives. The lookups are function parameters.
- The gate's validity flag is taken to be the schema's verdict on the current values. The form library's asynchronous validation is the boolean parameter `isValidating`.
- Each section's own validity flag, which enables its Continue button, comes from step components that are not part of this model. It is the `sectionValid` argument of a press.
- `Stepper.Root` also receives `setStep`. Any other way the stepper component might change the step is not modelled.
- The second `return` block (lines 351–382) and the review-modal state (`open`) are left out. That block follows an earlier `return` and is never reached.
- Rendering, internationalisation and the connected-wallet context are left out.

# Payment plan spotlight: amount logic

A Dafny model of the arithmetic inside the `PaymentPlanSpotlight` React
component of the checkout's installment ("pay in N") flow. The component takes
an installment count, the current per-installment amount, an optional
variable-first-installment (VFI) amount, an optional promotion, an optional
installment schedule and an optional "due today hero" switch. It shows either:

- the regular layout: "N bi-weekly payments of", the amount, the original
  pre-promotion amount struck through when a promotion applies, a `*` and a
  "larger first payment" banner for VFI plans; or
- the due-today hero: the amount due today, "then R more payment(s) of X ·
  T total".

The model lifts this logic out of the JSX as pure functions:

| file | module | contents |
|---|---|---|
| wrappers.dfy | Wrappers | `Option` for optional properties. |
| cents.dfy | Cents | `Math.ceil(x * 100) / 100` on exact reals, with its properties. |
| installments.dfy | Installments | The schedule and its plan total, the `reduce` left fold. |
| numbers.dfy | Numbers | Finite values plus the infinities and NaN that division by a zero count yields. |
| decimal.dfy | Decimal | `${n}` rendering of an integer, plus a parser that undoes it. |
| spotlight.dfy | Spotlight | The properties, the original amount, the hero values, the VFI markers and `Render`. |

Money is exact `real`. An undefined property is `None`. The destructuring
defaults `promotionAmount = 0` and `showDueTodayHero = false` are applied via
`ValueOr`. JavaScript truthiness of the VFI amount is `Truthy`: undefined and
0 are false.

Three behaviours of the code worth knowing:

- With the schedule present and a positive promotion, the struck-through
  amount is the pre-promotion plan total divided by the count, rounded up to
  the cent. `installmentAmount` does not enter it, so when the caller passes
  the largest regular installment, the struck-through figure can be the
  smaller one. `Spotlight.OriginalCanUndercutInstallmentAmount` gives an
  example: 59.39 struck through next to 62.50.
- The hero's secondary line is not special-cased for a one-installment plan.
  It reads "then 0 more payments of" (`Spotlight.SecondaryLineNoneRemaining`).
  `remainingCount` is not clamped: a count of 0 gives -1.
- `installmentAmount` is an input. The calling component computes it as the
  largest installment of the regular range, which this model does not cover.

`Render` models the component as written, including the stray "0" of
`{variableFirstInstallmentAmount && ...}` for a first-installment amount of
0. `RenderIntended` is the same layout without that stray text.

## Model

| member | source | states |
|---|---|---|
| Cents.Ceil | zip-frontends-changes/packages/zip-components/src/v2/payment/PaymentPlanSpotlight.tsx:36 | `Math.ceil` gives an integer at or above its argument and less than one above it. |
| Cents.CeilCents | zip-frontends-changes/packages/zip-components/src/v2/payment/PaymentPlanSpotlight.tsx:34-40 | Rounding up to the cent gives a whole number of cents. The result is never below the input and is less than one cent above it. |
| Cents.CeilCentsIsLeast | zip-frontends-changes/packages/zip-components/src/v2/payment/PaymentPlanSpotlight.tsx:36 | No whole-cent amount at or above the input lies below the rounded value, so rounding moves by the least possible amount. |
| Cents.CeilCentsFixesCents | zip-frontends-changes/packages/zip-components/src/v2/payment/PaymentPlanSpotlight.tsx:40 | An amount that is already whole cents is unchanged by rounding up. |
| Cents.CeilCentsMonotone | zip-frontends-changes/packages/zip-components/src/v2/payment/PaymentPlanSpotlight.tsx:36 | Rounding up to the cent preserves order. |
| Installments.ReduceTotal | zip-frontends-changes/packages/zip-components/src/v2/payment/PaymentPlanSpotlight.tsx:30-33 | The `reduce` loop, accumulating from 0 in schedule order, ends with the reference front-to-back sum of `totalAmountIncludingFees`. |
| Installments.TotalIsSumFromFront | zip-frontends-changes/packages/zip-components/src/v2/payment/PaymentPlanSpotlight.tsx:54-57 | The left-fold plan total equals the independent front-to-back sum. |
| Installments.TotalAppend | zip-frontends-changes/packages/zip-components/src/v2/payment/PaymentPlanSpotlight.tsx:54-57 | The plan total of two concatenated schedules is the sum of their totals. |
| Installments.TotalNonNegative | zip-frontends-changes/packages/zip-components/src/v2/payment/PaymentPlanSpotlight.tsx:54-57 | A schedule with no negative entry has a non-negative total. |
| Installments.TotalBoundsEach | zip-frontends-changes/packages/zip-components/src/v2/payment/PaymentPlanSpotlight.tsx:54-57 | With no negative entry, the plan total is at least every single installment's total. |
| Numbers.Divide | zip-frontends-changes/packages/zip-components/src/v2/payment/PaymentPlanSpotlight.tsx:35 | Division by an integer count is exact when the count is non-zero. A zero count gives the infinity of the numerator's sign, or NaN for 0/0. |
| Numbers.AddFinite | zip-frontends-changes/packages/zip-components/src/v2/payment/PaymentPlanSpotlight.tsx:39 | Adding a finite amount shifts a finite sum by exactly that amount and leaves infinities and NaN unchanged. |
| Numbers.CeilCentsNum | zip-frontends-changes/packages/zip-components/src/v2/payment/PaymentPlanSpotlight.tsx:40 | `Math.ceil(x * 100) / 100` rounds finite values up to the cent. Infinities and NaN pass through. |
| Decimal.NatToString | zip-frontends-changes/packages/zip-components/src/v2/payment/PaymentPlanSpotlight.tsx:65 | A count renders as a non-empty run of digits with no leading zero. |
| Decimal.IntToString | zip-frontends-changes/packages/zip-components/src/v2/payment/PaymentPlanSpotlight.tsx:65 | `${n}` starts with a minus sign exactly when the count is negative, followed by the canonical digits: non-empty, with no leading zero. |
| Decimal.IntToStringRoundTrip | zip-frontends-changes/packages/zip-components/src/v2/payment/PaymentPlanSpotlight.tsx:65 | The rendered count parses back to the same integer. |
| Spotlight.Promotion | zip-frontends-changes/packages/zip-components/src/v2/payment/PaymentPlanSpotlight.tsx:19 | An undefined promotion reads as 0; a defined one is taken as given. |
| Spotlight.IsPromotionAvailable | zip-frontends-changes/packages/zip-components/src/v2/payment/PaymentPlanSpotlight.tsx:23-24 | A promotion is available exactly when the promotion is defined and strictly positive. |
| Spotlight.Truthy | zip-frontends-changes/packages/zip-components/src/v2/payment/PaymentPlanSpotlight.tsx:91-101 | The VFI amount is truthy exactly when it is defined and not 0. |
| Spotlight.Unrounded | zip-frontends-changes/packages/zip-components/src/v2/payment/PaymentPlanSpotlight.tsx:30-39 | Before rounding, with the schedule and a non-zero count, the amount times the count is the plan total plus the promotion. Without the schedule, its excess over `installmentAmount` times the count is the promotion. With a zero count it is +Infinity, -Infinity or NaN by the sign of the numerator. |
| Spotlight.OriginalInstallmentAmount | zip-frontends-changes/packages/zip-components/src/v2/payment/PaymentPlanSpotlight.tsx:23-47 | Without a positive promotion (an omitted one defaults to 0), the original amount is exactly `installmentAmount`. With one, it is a whole number of cents less than a cent above its target. With the schedule, the target is (plan total + promotion) / count. Without it, the target is `installmentAmount + promotion / count`. It is not finite exactly when the count is 0. Then it is +Infinity without the schedule, and with the schedule +Infinity, -Infinity or NaN as the plan total plus promotion is positive, negative or 0. |
| Spotlight.OriginalIsLeastCentsAbovePlanAverage | zip-frontends-changes/packages/zip-components/src/v2/payment/PaymentPlanSpotlight.tsx:29-36 | With the schedule and a positive promotion, the original amount is the least whole-cent amount covering the pre-promotion plan average. |
| Spotlight.OriginalExceedsInstallmentAmountWithoutSchedule | zip-frontends-changes/packages/zip-components/src/v2/payment/PaymentPlanSpotlight.tsx:38-40 | Without the schedule, a positive promotion over a positive count makes the original amount strictly larger than `installmentAmount`. |
| Spotlight.OriginalCanUndercutInstallmentAmount | zip-frontends-changes/packages/zip-components/src/v2/payment/PaymentPlanSpotlight.tsx:29-36 | With the schedule, the original amount can be smaller than `installmentAmount`. Example: 50, 62.50, 62.50, 62.50 with a 0.04 promotion. |
| Spotlight.ShowsHero | zip-frontends-changes/packages/zip-components/src/v2/payment/PaymentPlanSpotlight.tsx:51 | The hero is shown exactly when `showDueTodayHero` is true and the schedule is defined. An omitted switch means no hero. |
| Spotlight.PaymentNoun | zip-frontends-changes/packages/zip-components/src/v2/payment/PaymentPlanSpotlight.tsx:65 | The noun is "payment" exactly when one payment remains and "payments" otherwise, including for 0 and negative counts. |
| Spotlight.DueTodayHero | zip-frontends-changes/packages/zip-components/src/v2/payment/PaymentPlanSpotlight.tsx:49-57 | The hero is shown iff it is requested and the schedule is present. Due today is the VFI amount whenever it is defined, including 0, and `installmentAmount` otherwise. The remaining count is one less than the installment count, so it is non-negative when the count is at least 1. The noun is `PaymentNoun` of the remaining count. The total equals the reference sum over the whole schedule. |
| Spotlight.HeroTotalBoundsEachInstallment | zip-frontends-changes/packages/zip-components/src/v2/payment/PaymentPlanSpotlight.tsx:54-57 | With no negative installment, the hero total is at least every installment's total. |
| Spotlight.OriginalCoversHeroTotal | zip-frontends-changes/packages/zip-components/src/v2/payment/PaymentPlanSpotlight.tsx:30-57 | The promotion path and the hero sum the same schedule. The original amount times the count covers the hero total plus the promotion. |
| Spotlight.SecondaryLine | zip-frontends-changes/packages/zip-components/src/v2/payment/PaymentPlanSpotlight.tsx:65 | The hero's secondary line is "then ", then digits that parse back to the remaining count, then " more ", the noun, " of " and the formatted per-payment amount. It ends with " · ", the formatted total and " total". |
| Spotlight.SecondaryLineOneRemaining | zip-frontends-changes/packages/zip-components/src/v2/payment/PaymentPlanSpotlight.tsx:65 | With one payment remaining, the line reads "then 1 more payment of ...". |
| Spotlight.SecondaryLineNoneRemaining | zip-frontends-changes/packages/zip-components/src/v2/payment/PaymentPlanSpotlight.tsx:53-65 | A one-installment plan still reads "then 0 more payments of ...". |
| Spotlight.Asterisk | zip-frontends-changes/packages/zip-components/src/v2/payment/PaymentPlanSpotlight.tsx:91-96 | The `*` marker appears exactly when the VFI amount is defined and non-zero. |
| Spotlight.BannerAsWritten | zip-frontends-changes/packages/zip-components/src/v2/payment/PaymentPlanSpotlight.tsx:101-106 | As written, the banner slot holds the banner exactly when the VFI amount is truthy. It renders a stray "0" exactly when the amount is 0. |
| Spotlight.BannerAsWrittenLeaksZero | zip-frontends-changes/packages/zip-components/src/v2/payment/PaymentPlanSpotlight.tsx:91-106 | A VFI amount of 0 shows no asterisk, but the banner slot renders "0". |
| Spotlight.VfiBanner | zip-frontends-changes/packages/zip-components/src/v2/payment/PaymentPlanSpotlight.tsx:101-106 | The corrected banner never renders a stray "0" and is shown exactly when the asterisk is, carrying the VFI amount. |
| Spotlight.VfiBannerAgreesAwayFromZero | zip-frontends-changes/packages/zip-components/src/v2/payment/PaymentPlanSpotlight.tsx:101-106 | For every VFI amount other than 0, the corrected banner is what the written code renders. |
| Spotlight.CountLine | zip-frontends-changes/packages/zip-components/src/v2/payment/PaymentPlanSpotlight.tsx:75 | The regular heading is the count's canonical numeral followed by " bi-weekly payments of". The numeral reads back as the installment count. |
| Spotlight.Render | zip-frontends-changes/packages/zip-components/src/v2/payment/PaymentPlanSpotlight.tsx:49-108 | The hero is rendered iff it is requested and the schedule is present. Otherwise: the struck-through original amount appears iff a promotion is available, and it is the original amount. The shown amount is `installmentAmount`. The heading is `CountLine` of the count. The asterisk slot is `Asterisk` of the VFI amount: "*" when truthy, "" otherwise. The banner slot is `BannerAsWritten`, which carries the VFI amount itself. The banner appears exactly with the asterisk, and the slot shows the stray "0" exactly when the VFI amount is 0. |
| Spotlight.RenderIntended | zip-frontends-changes/packages/zip-components/src/v2/payment/PaymentPlanSpotlight.tsx:49-108 | The intended layout is `Render` with only the banner slot replaced by `VfiBanner`. So it never shows the stray "0", shows the banner exactly with the asterisk, and equals `Render` for every VFI amount other than 0. |
| Spotlight.RenderIntendedHidesZeroVfi | zip-frontends-changes/packages/zip-components/src/v2/payment/PaymentPlanSpotlight.tsx:91-106 | In the intended regular layout, a VFI amount of 0 shows neither the asterisk nor any banner text. |
| Spotlight.ZeroVfiIsDueTodayButUnmarked | zip-frontends-changes/packages/zip-components/src/v2/payment/PaymentPlanSpotlight.tsx:52-101 | A VFI amount of 0 is shown as 0 due today in the hero. The regular layout shows no asterisk for it, but the banner slot shows the stray "0". |

## Left out

- JSX structure, CSS classes, the `Body` component and `useMemo` caching are presentation only.
- `formatCurrency` is not part of this model. In `SecondaryLine` it is the function parameter `fmt`. The amounts it would format are kept as numbers in the views, and the `.slice(1)` that drops the currency symbol is not modelled.
- IEEE 754 rounding of sums, products and quotients is not modelled: amounts are exact reals. For inputs like 0.1 + 0.2, JavaScript's `Math.ceil(x * 100) / 100` can differ from the model by a cent.
- The sign of zero is not modelled: a tiny negative unrounded amount rounds to -0 in JavaScript and to 0 here.
- Spotlight.Props: `installmentCount` is an integer. A fractional JavaScript number there is not modelled.
- The caller's steady-state amount (the maximum over the regular installment range) and its VFI detection are not modelled. Both belong to the calling component, and `installmentAmount` and the VFI amount are inputs here.
- The design-tool layout script and the feature-flag key list are not modelled. They hold no amount logic, and the flag reaches this component only as the `showDueTodayHero` input.
- Decimal.IntToString: writes every digit. A JavaScript number of magnitude 10^21 or more renders in exponent form (`${1e21}` is "1e+21"), and that form is not modelled.
- Spotlight.Props: counts are unbounded integers. Beyond 2^53 a JavaScript number is no longer exact, so `installmentCount - 1` there is not modelled.
- A `null` property is not modelled: the component's types admit only a number, an array or undefined.

## Findings

| source | as written | input that shows it | evidently intended | confidence | as-written member | corrected member |
|---|---|---|---|---|---|---|
| zip-frontends-changes/packages/zip-components/src/v2/payment/PaymentPlanSpotlight.tsx:101 | `{variableFirstInstallmentAmount && (<banner/>)}` evaluates to the number 0 for a VFI amount of 0, and React renders 0 as the text "0" | `variableFirstInstallmentAmount = 0` in the regular layout | nothing shown when there is no larger first payment, matching the absent asterisk | medium; not executed | Spotlight.BannerAsWritten | Spotlight.RenderIntended |

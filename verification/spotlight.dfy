/** The amount logic of the payment-plan spotlight: the struck-through
    pre-promotion installment amount, the "due today" hero values, and the
    markers for a variable first installment (VFI). Presentation is reduced to
    the values and texts the component shows. */
module Spotlight {
  import opened Wrappers
  import opened Cents
  import opened Installments
  import opened Numbers
  import opened Decimal

  /** The component's properties; an optional property may be undefined. */
  datatype Props = Props(
    installmentCount: int,
    installmentAmount: real,
    variableFirstInstallmentAmount: Option<real>,
    promotionAmount: Option<real>,
    installments: Option<seq<Installment>>,
    showDueTodayHero: Option<bool>)

  /** The promotion after its default: an undefined promotion reads as 0. */
  function Promotion(p: Props): (r: real)
    ensures p.promotionAmount.None? ==> r == 0.0
    ensures p.promotionAmount.Some? ==> r == p.promotionAmount.value
  {
    p.promotionAmount.ValueOr(0.0)
  }

  /** A promotion is shown only when it is strictly positive. */
  predicate IsPromotionAvailable(p: Props)
    ensures IsPromotionAvailable(p) <==> p.promotionAmount.Some? && p.promotionAmount.value > 0.0
  {
    Promotion(p) > 0.0
  }

  /** JavaScript truthiness of an optional number: undefined and 0 are false. */
  predicate Truthy(v: Option<real>)
    ensures Truthy(v) <==> v != None && v != Some(0.0)
  {
    v.Some? && v.value != 0.0
  }

  // ---------------------------------------------------------------------------
  // Pre-promotion ("original") installment amount

  /** The pre-promotion amount before rounding: with the schedule, the plan
      total plus the promotion spread over the installments; without it, the
      current amount plus the promotion's share. */
  function Unrounded(p: Props): (r: Num)
    ensures p.installments.Some? && p.installmentCount != 0 ==>
              r.Finite? && r.value * p.installmentCount as real == Total(p.installments.value) + Promotion(p)
    ensures p.installments.None? && p.installmentCount != 0 ==>
              r.Finite? && (r.value - p.installmentAmount) * p.installmentCount as real == Promotion(p)
    ensures p.installments.Some? && p.installmentCount == 0 ==>
              var sum := Total(p.installments.value) + Promotion(p);
              (sum > 0.0 ==> r == PosInfinity) && (sum < 0.0 ==> r == NegInfinity) && (sum == 0.0 ==> r == NaN)
    ensures p.installments.None? && p.installmentCount == 0 ==>
              (Promotion(p) > 0.0 ==> r == PosInfinity) && (Promotion(p) < 0.0 ==> r == NegInfinity)
                && (Promotion(p) == 0.0 ==> r == NaN)
  {
    match p.installments
    case Some(xs) => Divide(Total(xs) + Promotion(p), p.installmentCount)
    case None => AddFinite(p.installmentAmount, Divide(Promotion(p), p.installmentCount))
  }

  /** The amount shown struck through next to the promoted one. */
  function OriginalInstallmentAmount(p: Props): (r: Num)
    ensures !IsPromotionAvailable(p) ==> r == Finite(p.installmentAmount)
    ensures IsPromotionAvailable(p) ==> (r.Finite? <==> p.installmentCount != 0)
    ensures IsPromotionAvailable(p) && p.installmentCount == 0 && p.installments.None? ==> r == PosInfinity
    ensures IsPromotionAvailable(p) && p.installmentCount == 0 && p.installments.Some? ==>
              var sum := Total(p.installments.value) + Promotion(p);
              (sum > 0.0 ==> r == PosInfinity) && (sum < 0.0 ==> r == NegInfinity) && (sum == 0.0 ==> r == NaN)
    ensures IsPromotionAvailable(p) && p.installmentCount != 0 && p.installments.Some? ==>
              var average := (Total(p.installments.value) + Promotion(p)) / p.installmentCount as real;
              IsCents(r.value) && average <= r.value < average + 0.01
    ensures IsPromotionAvailable(p) && p.installmentCount != 0 && p.installments.None? ==>
              var share := p.installmentAmount + Promotion(p) / p.installmentCount as real;
              IsCents(r.value) && share <= r.value < share + 0.01
  {
    if !IsPromotionAvailable(p) then Finite(p.installmentAmount)
    else CeilCentsNum(Unrounded(p))
  }

  /** With the schedule present, the original amount is the least whole-cent
      amount that covers the pre-promotion plan average. */
  lemma OriginalIsLeastCentsAbovePlanAverage(p: Props, c: real)
    requires IsPromotionAvailable(p) && p.installmentCount != 0 && p.installments.Some?
    requires IsCents(c)
    requires (Total(p.installments.value) + Promotion(p)) / p.installmentCount as real <= c
    ensures OriginalInstallmentAmount(p).Finite?
    ensures OriginalInstallmentAmount(p).value <= c
  {
    var average := (Total(p.installments.value) + Promotion(p)) / p.installmentCount as real;
    assert Unrounded(p) == Finite(average);
    CeilCentsIsLeast(average, c);
  }

  /** Without the schedule, a positive promotion over a positive count always
      shows an original amount strictly above the current one. */
  lemma OriginalExceedsInstallmentAmountWithoutSchedule(p: Props)
    requires IsPromotionAvailable(p) && p.installmentCount > 0 && p.installments.None?
    ensures OriginalInstallmentAmount(p).Finite?
    ensures OriginalInstallmentAmount(p).value > p.installmentAmount
  {
  }

  /** With the schedule present, the original amount is computed from the plan
      average and not from `installmentAmount`, so it can fall below it: four
      installments of 50, 62.50, 62.50, 62.50 with the largest as the current
      amount and a 0.04 promotion show 59.39 struck through next to 62.50. */
  lemma OriginalCanUndercutInstallmentAmount()
    ensures var p := Props(4, 62.5, None, Some(0.04),
                           Some([Installment(50.0), Installment(62.5), Installment(62.5), Installment(62.5)]),
                           None);
            OriginalInstallmentAmount(p).Finite? && OriginalInstallmentAmount(p).value < p.installmentAmount
  {
    var xs := [Installment(50.0), Installment(62.5), Installment(62.5), Installment(62.5)];
    assert xs[..1][..0] == [];
    assert Total(xs[..1]) == 50.0;
    assert xs[..2][..1] == xs[..1];
    assert Total(xs[..2]) == 112.5;
    assert xs[..3][..2] == xs[..2];
    assert Total(xs[..3]) == 175.0;
    assert xs[..3] == xs[..|xs| - 1];
    assert Total(xs) == 237.5;
  }

  // ---------------------------------------------------------------------------
  // Due-today hero

  /** The values of the due-today hero: the amount due today, how many payments
      follow and of what amount, and the plan total. */
  datatype HeroView = HeroView(
    dueTodayAmount: real,
    remainingCount: int,
    noun: string,
    installmentAmount: real,
    total: real)

  /** The hero replaces the regular layout when it is requested and the
      schedule is present (any array, even an empty one, is truthy). */
  predicate ShowsHero(p: Props)
    ensures ShowsHero(p) <==> p.showDueTodayHero == Some(true) && p.installments.Some?
  {
    p.showDueTodayHero.ValueOr(false) && p.installments.Some?
  }

  /** "payment" for exactly one remaining payment, "payments" otherwise. */
  function PaymentNoun(remaining: int): (s: string)
    ensures s == "payment" <==> remaining == 1
    ensures s != "payment" ==> s == "payments"
  {
    if remaining == 1 then "payment" else "payments"
  }

  function DueTodayHero(p: Props): (h: Option<HeroView>)
    ensures h.Some? <==> p.showDueTodayHero == Some(true) && p.installments.Some?
    ensures h.Some? && p.variableFirstInstallmentAmount.Some? ==>
              h.value.dueTodayAmount == p.variableFirstInstallmentAmount.value
    ensures h.Some? && p.variableFirstInstallmentAmount.None? ==>
              h.value.dueTodayAmount == p.installmentAmount
    ensures h.Some? ==> h.value.remainingCount + 1 == p.installmentCount
    ensures h.Some? && p.installmentCount >= 1 ==> h.value.remainingCount >= 0
    ensures h.Some? ==> h.value.noun == PaymentNoun(h.value.remainingCount)
    ensures h.Some? ==> h.value.installmentAmount == p.installmentAmount
    ensures h.Some? ==> h.value.total == SumFromFront(p.installments.value)
  {
    if !ShowsHero(p) then None
    else
      var xs := p.installments.value;
      var remaining := p.installmentCount - 1;
      TotalIsSumFromFront(xs);
      Some(HeroView(
        p.variableFirstInstallmentAmount.ValueOr(p.installmentAmount),
        remaining,
        PaymentNoun(remaining),
        p.installmentAmount,
        Total(xs)))
  }

  /** With no negative installment, the hero total is at least each one. */
  lemma HeroTotalBoundsEachInstallment(p: Props, i: int)
    requires ShowsHero(p)
    requires NonNegative(p.installments.value)
    requires 0 <= i < |p.installments.value|
    ensures DueTodayHero(p).Some?
    ensures p.installments.value[i].totalAmountIncludingFees <= DueTodayHero(p).value.total
  {
    TotalIsSumFromFront(p.installments.value);
    TotalBoundsEach(p.installments.value, i);
  }

  /** The hero total and the promotion path sum the same schedule: the
      original amount, over all installments, covers the hero total plus the
      promotion. */
  lemma OriginalCoversHeroTotal(p: Props)
    requires ShowsHero(p) && IsPromotionAvailable(p) && p.installmentCount > 0
    ensures DueTodayHero(p).Some? && OriginalInstallmentAmount(p).Finite?
    ensures OriginalInstallmentAmount(p).value * p.installmentCount as real
              >= DueTodayHero(p).value.total + Promotion(p)
  {
  }

  /** The line under the hero amount, with `fmt` standing for the currency
      formatter. */
  function SecondaryLine(h: HeroView, fmt: real -> string): (line: string)
    ensures var count := IntToString(h.remainingCount);
            var middle := " more " + h.noun + " of " + fmt(h.installmentAmount);
            var tail := " \U{B7} " + fmt(h.total) + " total";
            && |line| == 5 + |count| + |middle| + |tail|
            && line[..5] == "then "
            && ParseInt(line[5..5 + |count|]) == Some(h.remainingCount)
            && line[5 + |count|..5 + |count| + |middle|] == middle
            && line[|line| - |tail|..] == tail
  {
    var count := IntToString(h.remainingCount);
    var middle := " more " + h.noun + " of " + fmt(h.installmentAmount);
    var tail := " \U{B7} " + fmt(h.total) + " total";
    IntToStringRoundTrip(h.remainingCount);
    var line := "then " + count + middle + tail;
    assert line[5..5 + |count|] == count;
    assert line[5 + |count|..5 + |count| + |middle|] == middle;
    line
  }

  /** A single follow-up payment reads in the singular. */
  lemma SecondaryLineOneRemaining(h: HeroView, fmt: real -> string)
    requires h.remainingCount == 1 && h.noun == PaymentNoun(h.remainingCount)
    ensures SecondaryLine(h, fmt)[..23] == "then 1 more payment of "
  {
  }

  /** A one-installment plan is not special-cased: the line still reads
      "then 0 more payments of". */
  lemma SecondaryLineNoneRemaining(h: HeroView, fmt: real -> string)
    requires h.remainingCount == 0 && h.noun == PaymentNoun(h.remainingCount)
    ensures SecondaryLine(h, fmt)[..24] == "then 0 more payments of "
  {
  }

  // ---------------------------------------------------------------------------
  // Regular layout and VFI markers

  /** What stands where the "larger first payment" banner goes. */
  datatype BannerSlot = NoBanner | StrayZero | LargerFirstPayment(amount: real)

  /** The marker after the amount: `*` exactly for a truthy VFI amount. */
  function Asterisk(vfi: Option<real>): (s: string)
    ensures s == "*" <==> Truthy(vfi)
    ensures s != "*" ==> s == ""
  {
    if Truthy(vfi) then "*" else ""
  }

  /** The banner as `{vfi && <banner/>}` renders it: an undefined amount
      renders nothing, but an amount of 0 is itself rendered, as the text "0". */
  function BannerAsWritten(vfi: Option<real>): (b: BannerSlot)
    ensures b == StrayZero <==> vfi == Some(0.0)
    ensures b.LargerFirstPayment? <==> Truthy(vfi)
    ensures b.LargerFirstPayment? ==> b.amount == vfi.value
  {
    match vfi
    case None => NoBanner
    case Some(v) => if v == 0.0 then StrayZero else LargerFirstPayment(v)
  }

  /** The banner as evidently intended: shown exactly alongside the asterisk,
      and nothing at all otherwise. */
  function VfiBanner(vfi: Option<real>): (b: BannerSlot)
    ensures b != StrayZero
    ensures b.LargerFirstPayment? <==> Asterisk(vfi) == "*"
    ensures b.LargerFirstPayment? ==> b.amount == vfi.value
  {
    if Truthy(vfi) then LargerFirstPayment(vfi.value) else NoBanner
  }

  /** The stray "0": a VFI amount of 0 shows no asterisk, yet the banner slot
      renders "0". */
  lemma BannerAsWrittenLeaksZero()
    ensures Asterisk(Some(0.0)) == "" && BannerAsWritten(Some(0.0)) == StrayZero
  {
  }

  /** Apart from a VFI amount of 0, the corrected banner renders what the
      written one does. */
  lemma VfiBannerAgreesAwayFromZero(vfi: Option<real>)
    requires vfi != Some(0.0)
    ensures VfiBanner(vfi) == BannerAsWritten(vfi)
  {
  }

  /** The heading of the regular layout, e.g. "4 bi-weekly payments of". */
  function CountLine(count: int): (s: string)
    ensures |s| > 22
    ensures s[|s| - 22..] == " bi-weekly payments of"
    ensures ParseInt(s[..|s| - 22]) == Some(count)
    ensures s[..|s| - 22] == IntToString(count)
  {
    var digits := IntToString(count);
    IntToStringRoundTrip(count);
    assert (digits + " bi-weekly payments of")[..|digits|] == digits;
    digits + " bi-weekly payments of"
  }

  /** The regular layout: the heading, the struck-through original amount
      (only under a promotion), the current amount and the VFI markers. */
  datatype StandardView = StandardView(
    countLine: string,
    originalAmount: Option<Num>,
    amount: real,
    asterisk: string,
    banner: BannerSlot)

  datatype View = DueToday(hero: HeroView) | Regular(standard: StandardView)

  /** Everything the spotlight shows for the given properties. */
  function Render(p: Props): (v: View)
    ensures v.DueToday? <==> ShowsHero(p)
    ensures v.DueToday? ==> DueTodayHero(p) == Some(v.hero)
    ensures v.Regular? ==> (v.standard.originalAmount.Some? <==> IsPromotionAvailable(p))
    ensures v.Regular? && IsPromotionAvailable(p) ==>
              v.standard.originalAmount == Some(OriginalInstallmentAmount(p))
    ensures v.Regular? ==> v.standard.amount == p.installmentAmount
    ensures v.Regular? ==> |v.standard.countLine| > 22
    ensures v.Regular? ==> ParseInt(v.standard.countLine[..|v.standard.countLine| - 22])
                             == Some(p.installmentCount)
    ensures v.Regular? ==> (v.standard.asterisk == "*" <==> Truthy(p.variableFirstInstallmentAmount))
    ensures v.Regular? ==> (v.standard.banner.LargerFirstPayment? <==> v.standard.asterisk == "*")
    ensures v.Regular? ==> (v.standard.banner == StrayZero <==> p.variableFirstInstallmentAmount == Some(0.0))
    ensures v.Regular? ==> v.standard.asterisk == Asterisk(p.variableFirstInstallmentAmount)
    ensures v.Regular? ==> v.standard.banner == BannerAsWritten(p.variableFirstInstallmentAmount)
    ensures v.Regular? ==> v.standard.countLine == CountLine(p.installmentCount)
  {
    RenderWith(p, BannerAsWritten(p.variableFirstInstallmentAmount))
  }

  /** The spotlight as evidently intended: the same as `Render` except that the
      banner slot never shows a stray "0". */
  function RenderIntended(p: Props): (v: View)
    ensures v.DueToday? <==> ShowsHero(p)
    ensures v.Regular? ==> v.standard.banner != StrayZero
    ensures v.Regular? ==> (v.standard.banner.LargerFirstPayment? <==> v.standard.asterisk == "*")
    ensures p.variableFirstInstallmentAmount != Some(0.0) ==> v == Render(p)
    ensures Render(p).DueToday? ==> v == Render(p)
    ensures Render(p).Regular? ==>
              v == Regular(Render(p).standard.(banner := VfiBanner(p.variableFirstInstallmentAmount)))
  {
    RenderWith(p, VfiBanner(p.variableFirstInstallmentAmount))
  }

  /** In the intended layout a VFI amount of 0 shows neither the asterisk nor
      any banner text. */
  lemma RenderIntendedHidesZeroVfi(p: Props)
    requires p.variableFirstInstallmentAmount == Some(0.0) && !ShowsHero(p)
    ensures RenderIntended(p).Regular?
    ensures RenderIntended(p).standard.asterisk == ""
    ensures RenderIntended(p).standard.banner == NoBanner
  {
  }

  /** The layout shared by `Render` and `RenderIntended`, given what fills the
      banner slot. */
  function RenderWith(p: Props, banner: BannerSlot): View {
    match DueTodayHero(p)
    case Some(h) => DueToday(h)
    case None =>
      Regular(StandardView(
        CountLine(p.installmentCount),
        if IsPromotionAvailable(p) then Some(OriginalInstallmentAmount(p)) else None,
        p.installmentAmount,
        Asterisk(p.variableFirstInstallmentAmount),
        banner))
  }

  /** A VFI amount of 0 is "defined" for the hero but falsy for the markers:
      the hero shows 0 due today, while the regular layout shows no asterisk
      and, in place of the banner, the stray text "0". */
  lemma ZeroVfiIsDueTodayButUnmarked(p: Props)
    requires p.variableFirstInstallmentAmount == Some(0.0)
    ensures ShowsHero(p) ==> Render(p).hero.dueTodayAmount == 0.0
    ensures !ShowsHero(p) ==> Render(p).standard.asterisk == ""
                              && Render(p).standard.banner == StrayZero
  {
  }
}

/** The voucher form: its default record, the field edits with their numeric
    fallbacks, which discount field is offered, and the generate guard chain. */
module VoucherGenerator {

  import opened Wrappers
  import Text

  datatype DiscountType = Percentage | Fixed | FreeItem | Bogo

  /** The form record; the expiry is a time in milliseconds. */
  datatype VoucherData = VoucherData(
    quantity: int,
    itemOffer: string,
    discountType: DiscountType,
    discountValue: real,
    expirationDate: int,
    usageLimit: int,
    eventPurpose: string)

  /** Thirty days in milliseconds. */
  const ThirtyDays: int := 30 * 24 * 60 * 60 * 1000

  /** The record the form starts from at time `now`. */
  function Defaults(now: int): VoucherData
  {
    VoucherData(1, "", Percentage, 0.0, now + ThirtyDays, 1, "")
  }

  /** One voucher, a percentage discount of 0, one use, no texts, and an expiry
      2,592,000,000 ms (thirty days) from now. */
  lemma DefaultsRules(now: int)
    ensures var d := Defaults(now);
      d.quantity == 1 && d.usageLimit == 1 && d.discountType == Percentage && d.discountValue == 0.0
      && d.itemOffer == "" && d.eventPurpose == "" && d.expirationDate - now == 2592000000
  {
  }

  /** `parseInt(text) || 1`: a failed parse (NaN) and 0 both give 1. */
  function IntOrOne(text: string): int
  {
    var p := Text.ParseInt(text);
    if p.Some? && p.value != 0 then p.value else 1
  }

  /** The fallback never yields 0; a non-zero number typed as `String` writes it is kept,
      negatives included, and a typed 0 becomes 1. */
  lemma IntOrOneRules(text: string, v: int)
    ensures IntOrOne(text) != 0
    ensures v != 0 ==> IntOrOne(Text.IntToString(v)) == v
    ensures IntOrOne(Text.IntToString(0)) == 1
    ensures Text.ParseInt(text).None? ==> IntOrOne(text) == 1
  {
    Text.ParseIntRoundTrip(v);
    Text.ParseIntRoundTrip(0);
  }

  /** `parseFloat(text) || 0`, with the parse given as `parsed` (`None` for NaN). */
  function RealOrZero(parsed: Option<real>): (r: real)
    ensures parsed.None? ==> r == 0.0
    ensures parsed.Some? ==> r == parsed.value
  {
    if parsed.Some? && parsed.value != 0.0 then parsed.value else 0.0
  }

  /** The amount field is offered only for percentage and fixed discounts. */
  predicate DiscountFieldShown(t: DiscountType)
  {
    t == Percentage || t == Fixed
  }

  /** The amount field's label and placeholder. */
  function DiscountFieldLabel(t: DiscountType): string
  {
    if t == Percentage then "Percentage (%)" else "Amount (₱)"
  }

  function DiscountPlaceholder(t: DiscountType): string
  {
    if t == Percentage then "10" else "100"
  }

  /** The two offered discount kinds get different labels and placeholders. */
  lemma DiscountFieldRules(t: DiscountType)
    ensures DiscountFieldShown(t) <==> !(t == FreeItem || t == Bogo)
    ensures DiscountFieldLabel(Percentage) != DiscountFieldLabel(Fixed)
    ensures DiscountPlaceholder(Percentage) != DiscountPlaceholder(Fixed)
  {
  }

  datatype GenerateOutcome = MissingOffer | MissingPurpose | BadQuantity | Generated(data: VoucherData)

  /** `handleGenerate`: the checks in order, the first failing one deciding. */
  function GenerateOutcomeOf(d: VoucherData): GenerateOutcome
  {
    if Text.Trim(d.itemOffer) == "" then MissingOffer
    else if Text.Trim(d.eventPurpose) == "" then MissingPurpose
    else if d.quantity <= 0 then BadQuantity
    else Generated(d)
  }

  /** The alert of a failed check. */
  function ErrorMessage(o: GenerateOutcome): Option<string>
  {
    match o
    case MissingOffer => Some("Please specify the item or offer")
    case MissingPurpose => Some("Please specify the event or purpose")
    case BadQuantity => Some("Quantity must be greater than 0")
    case Generated(_) => None
  }

  predicate Blank(s: string)
  {
    forall i :: 0 <= i < |s| ==> Text.IsWhitespace(s[i])
  }

  /** A blank offer is reported first, then a blank purpose, then a quantity that is
      not positive; the form is handed on, unchanged, exactly when none applies, and an
      alert is raised exactly when it is not. */
  lemma GenerateRules(d: VoucherData)
    ensures GenerateOutcomeOf(d) == MissingOffer <==> Blank(d.itemOffer)
    ensures GenerateOutcomeOf(d) == MissingPurpose <==> !Blank(d.itemOffer) && Blank(d.eventPurpose)
    ensures GenerateOutcomeOf(d) == BadQuantity <==>
      !Blank(d.itemOffer) && !Blank(d.eventPurpose) && d.quantity <= 0
    ensures GenerateOutcomeOf(d).Generated? <==>
      !Blank(d.itemOffer) && !Blank(d.eventPurpose) && d.quantity > 0
    ensures GenerateOutcomeOf(d).Generated? ==> GenerateOutcomeOf(d).data == d
    ensures ErrorMessage(GenerateOutcomeOf(d)).Some? <==> !GenerateOutcomeOf(d).Generated?
  {
    Text.TrimEmptyIffBlank(d.itemOffer);
    Text.TrimEmptyIffBlank(d.eventPurpose);
  }

  /** The defaults are refused for their blank offer. */
  lemma DefaultsRefused(now: int)
    ensures GenerateOutcomeOf(Defaults(now)) == MissingOffer
  {
  }

  /** The form's state. */
  class VoucherForm {
    var formData: VoucherData

    /** Neither count holds 0; every edit keeps it so. */
    predicate NonZeroCounts()
      reads this
    {
      formData.quantity != 0 && formData.usageLimit != 0
    }

    constructor(now: int)
      ensures formData == Defaults(now)
      ensures NonZeroCounts()
    {
      formData := Defaults(now);
    }

    method EditQuantity(text: string)
      modifies this
      ensures formData == old(formData).(quantity := IntOrOne(text))
      ensures old(NonZeroCounts()) ==> NonZeroCounts()
    {
      IntOrOneRules(text, 1);
      formData := formData.(quantity := IntOrOne(text));
    }

    method EditItemOffer(text: string)
      modifies this
      ensures formData == old(formData).(itemOffer := text)
      ensures old(NonZeroCounts()) ==> NonZeroCounts()
    {
      formData := formData.(itemOffer := text);
    }

    method SelectDiscountType(t: DiscountType)
      modifies this
      ensures formData == old(formData).(discountType := t)
      ensures old(NonZeroCounts()) ==> NonZeroCounts()
    {
      formData := formData.(discountType := t);
    }

    /** The amount field's edit, with `parseFloat`'s result given. */
    method EditDiscountValue(parsed: Option<real>)
      modifies this
      ensures formData == old(formData).(discountValue := RealOrZero(parsed))
      ensures old(NonZeroCounts()) ==> NonZeroCounts()
    {
      formData := formData.(discountValue := RealOrZero(parsed));
    }

    method EditUsageLimit(text: string)
      modifies this
      ensures formData == old(formData).(usageLimit := IntOrOne(text))
      ensures old(NonZeroCounts()) ==> NonZeroCounts()
    {
      IntOrOneRules(text, 1);
      formData := formData.(usageLimit := IntOrOne(text));
    }

    method EditEventPurpose(text: string)
      modifies this
      ensures formData == old(formData).(eventPurpose := text)
      ensures old(NonZeroCounts()) ==> NonZeroCounts()
    {
      formData := formData.(eventPurpose := text);
    }

    /** The generate button: the checks in order, and on success the form data is
        handed to `onGenerate`; the form itself is not changed. */
    method HandleGenerate() returns (outcome: GenerateOutcome)
      ensures outcome == GenerateOutcomeOf(formData)
      ensures outcome == BadQuantity && NonZeroCounts() ==> formData.quantity < 0
    {
      if Text.Trim(formData.itemOffer) == "" {
        return MissingOffer;
      }
      if Text.Trim(formData.eventPurpose) == "" {
        return MissingPurpose;
      }
      if formData.quantity <= 0 {
        return BadQuantity;
      }
      return Generated(formData);
    }
  }
}

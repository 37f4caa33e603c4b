/** The peso calculations of `utils/currency.ts`: VAT, service charge and the
    bill total, plus the choice of unit in the short display format. */
module Currency {

  /** The VAT rate applied when the caller gives none. */
  const DefaultVatRate: real := 0.12

  /** The service-charge rate applied when the caller gives none. */
  const DefaultServiceRate: real := 0.10

  /** The breakdown of a bill. */
  datatype Totals = Totals(subtotal: real, vat: real, serviceCharge: real, total: real)

  function CalculateVAT(amount: real, vatRate: real): real
  {
    amount * vatRate
  }

  function CalculateServiceCharge(amount: real, serviceRate: real): real
  {
    amount * serviceRate
  }

  /** `calculateTotal`: the subtotal is passed through and the total adds the two
      charges to it. */
  function CalculateTotal(subtotal: real, vatRate: real, serviceRate: real): (t: Totals)
    ensures t.subtotal == subtotal
    ensures t.vat == CalculateVAT(subtotal, vatRate)
    ensures t.serviceCharge == CalculateServiceCharge(subtotal, serviceRate)
    ensures t.total == t.subtotal + t.vat + t.serviceCharge
  {
    var vat := CalculateVAT(subtotal, vatRate);
    var serviceCharge := CalculateServiceCharge(subtotal, serviceRate);
    Totals(subtotal, vat, serviceCharge, subtotal + vat + serviceCharge)
  }

  /** Each charge is the amount scaled by its rate, so the charges of a sum are the
      sums of the charges. */
  lemma ChargesLinear(a: real, b: real, rate: real)
    ensures CalculateVAT(a + b, rate) == CalculateVAT(a, rate) + CalculateVAT(b, rate)
    ensures CalculateServiceCharge(a + b, rate)
         == CalculateServiceCharge(a, rate) + CalculateServiceCharge(b, rate)
  {
  }

  /** With the default rates the total is 1.22 times the subtotal. */
  lemma DefaultTotal(subtotal: real)
    ensures CalculateTotal(subtotal, DefaultVatRate, DefaultServiceRate).total == 1.22 * subtotal
  {
  }

  /** The total of the sum of two subtotals is the sum of their totals, for any rates. */
  lemma TotalLinear(a: real, b: real, vatRate: real, serviceRate: real)
    ensures CalculateTotal(a + b, vatRate, serviceRate).total
         == CalculateTotal(a, vatRate, serviceRate).total + CalculateTotal(b, vatRate, serviceRate).total
  {
    ChargesLinear(a, b, vatRate);
    ChargesLinear(a, b, serviceRate);
  }

  /** Zero rates leave the subtotal as the total. */
  lemma ZeroRates(subtotal: real)
    ensures CalculateTotal(subtotal, 0.0, 0.0).total == subtotal
  {
  }

  /** Non-negative rates on a non-negative subtotal never lower it; the total stays
      within (1 + vatRate + serviceRate) times the subtotal. */
  lemma TotalAtLeastSubtotal(subtotal: real, vatRate: real, serviceRate: real)
    requires subtotal >= 0.0 && vatRate >= 0.0 && serviceRate >= 0.0
    ensures var t := CalculateTotal(subtotal, vatRate, serviceRate);
      t.vat >= 0.0 && t.serviceCharge >= 0.0 && t.total >= subtotal
      && t.total == subtotal * (1.0 + vatRate + serviceRate)
  {
  }

  /** The unit `formatPHPShort` chooses. */
  datatype ShortUnit = Millions | Thousands | Pesos

  /** The form of `formatPHPShort`: which unit is used and the number, before
      rounding, that is written in it. */
  datatype ShortForm = ShortForm(unit: ShortUnit, scaled: real)

  function ShortFormOf(amount: real): (f: ShortForm)
  {
    if amount >= 1000000.0 then ShortForm(Millions, amount / 1000000.0)
    else if amount >= 1000.0 then ShortForm(Thousands, amount / 1000.0)
    else ShortForm(Pesos, amount)
  }

  /** The factor a unit stands for. */
  function UnitFactor(u: ShortUnit): real
  {
    match u
    case Millions => 1000000.0
    case Thousands => 1000.0
    case Pesos => 1.0
  }

  /** The unit is chosen by three disjoint ranges of the amount, and the written number
      times the unit's factor is the amount; in the M and K forms it is at least 1. */
  lemma ShortFormBranches(amount: real)
    ensures ShortFormOf(amount).unit == Millions <==> amount >= 1000000.0
    ensures ShortFormOf(amount).unit == Thousands <==> 1000.0 <= amount < 1000000.0
    ensures ShortFormOf(amount).unit == Pesos <==> amount < 1000.0
    ensures ShortFormOf(amount).scaled * UnitFactor(ShortFormOf(amount).unit) == amount
    ensures ShortFormOf(amount).unit != Pesos ==> ShortFormOf(amount).scaled >= 1.0
    ensures ShortFormOf(amount).unit == Thousands ==> ShortFormOf(amount).scaled < 1000.0
  {
  }
}

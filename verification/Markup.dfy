/** The markup formula both sale drawers apply to a net cost. */
module Markup {
  import opened Numbers
  import opened Types

  /** `markupType === 'percent' ? (price * markupValue) / 100 : markupValue` */
  function Profit(price: Num, kind: MarkupType, markupValue: Num): (p: Num)
    ensures kind == Fixed ==> p == markupValue
    ensures kind == Percent ==> (p.Finite? <==> price.Finite? && markupValue.Finite?)
    ensures kind == Percent && p.Finite? ==> p.value * 100.0 == price.value * markupValue.value
  {
    match kind
    case Percent => DividedBy(Times(price, markupValue), 100.0)
    case Fixed => markupValue
  }
}

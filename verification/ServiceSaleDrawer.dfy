/** The drawer in which the agent prices a selected offer for the quote
    (components/ServiceSaleDrawer.tsx). Its price is coerced and its profit
    guarded against NaN, so the final price is always a number. */
module ServiceSale {
  import opened Numbers
  import opened Types
  import opened Markup

  /** The object handed to onAddToPackage: a package item without its id. */
  datatype SaleDraft = SaleDraft(
    service: ServiceOption,
    markupValue: Num,
    markupType: MarkupType,
    finalPrice: Num,
    internalNotes: string
  )

  /** `Number(service.price) || 0` */
  function ServicePrice(service: ServiceOption): (p: real)
    ensures service.price.Finite? ==> p == service.price.value
    ensures service.price.NaN? ==> p == 0.0
  {
    OrZero(service.price)
  }

  /** The effect's result: the net cost plus the profit, with a NaN profit taken as 0. */
  function FinalPrice(servicePrice: real, kind: MarkupType, markupValue: Num): (r: real)
    ensures markupValue.NaN? ==> r == servicePrice
    ensures kind == Percent && markupValue.Finite? ==>
      r == servicePrice + servicePrice * markupValue.value / 100.0
    ensures kind == Fixed && markupValue.Finite? ==> r == servicePrice + markupValue.value
  {
    var profit := Profit(Finite(servicePrice), kind, markupValue);
    servicePrice + (if profit.NaN? then 0.0 else profit.value)
  }

  /** `lucroLiquido = (finalPrice || 0) - (servicePrice || 0)`; both operands are
      always numbers here, so the `|| 0` guards change nothing. */
  function NetProfit(finalPrice: real, servicePrice: real): (r: real)
    ensures r == OrZero(Finite(finalPrice)) - OrZero(Finite(servicePrice))
  {
    finalPrice - servicePrice
  }

  /** The net profit shown is exactly the markup's profit, or 0 when that is NaN. */
  lemma NetProfitIsProfit(servicePrice: real, kind: MarkupType, markupValue: Num)
    ensures var profit := Profit(Finite(servicePrice), kind, markupValue);
      NetProfit(FinalPrice(servicePrice, kind, markupValue), servicePrice)
        == if profit.NaN? then 0.0 else profit.value
  {
  }

  /** 1000 at 10% sells for 1100 with a margin of 100; 500 plus a fixed 80 sells for 580. */
  lemma PricingScenarios()
    ensures FinalPrice(1000.0, Percent, Finite(10.0)) == 1100.0
    ensures NetProfit(FinalPrice(1000.0, Percent, Finite(10.0)), 1000.0) == 100.0
    ensures FinalPrice(500.0, Fixed, Finite(80.0)) == 580.0
    ensures NetProfit(FinalPrice(500.0, Fixed, Finite(80.0)), 500.0) == 80.0
  {
  }

  /** Nothing rejects a zero or negative markup: the sale price may then be at or below cost. */
  lemma {:induction false} NonPositiveMarkupAccepted(servicePrice: real, kind: MarkupType, v: real)
    requires servicePrice >= 0.0 && v <= 0.0
    ensures FinalPrice(servicePrice, kind, Finite(v)) <= servicePrice
  {
    if kind == Percent {
      assert servicePrice * v <= 0.0 by {
        assert servicePrice * (0.0 - v) >= 0.0;
      }
    }
  }

  class ServiceSaleDrawer {
    const service: ServiceOption
    var markupType: MarkupType
    var markupValue: Num
    var finalPrice: real
    var internalNotes: string

    /** The effect has run: finalPrice agrees with the price and the markup inputs. */
    ghost predicate Valid()
      reads this
    {
      finalPrice == FinalPrice(ServicePrice(service), markupType, markupValue)
    }

    /** Opening the drawer: percent markup of 15, empty notes, then the effect. */
    constructor (service: ServiceOption)
      ensures Valid()
      ensures this.service == service
      ensures markupType == Percent && markupValue == Finite(15.0) && internalNotes == ""
    {
      this.service := service;
      markupType := Percent;
      markupValue := Finite(15.0);
      internalNotes := "";
      new;
      finalPrice := FinalPrice(ServicePrice(service), markupType, markupValue);
    }

    /** setMarkupType, followed by the effect's recomputation. */
    method SetMarkupType(kind: MarkupType)
      modifies this
      ensures Valid()
      ensures markupType == kind && markupValue == old(markupValue) && internalNotes == old(internalNotes)
    {
      markupType := kind;
      finalPrice := FinalPrice(ServicePrice(service), markupType, markupValue);
    }

    /** setMarkupValue(Number(input)), followed by the effect's recomputation. */
    method SetMarkupValue(v: Num)
      modifies this
      ensures Valid()
      ensures markupValue == v && markupType == old(markupType) && internalNotes == old(internalNotes)
    {
      markupValue := v;
      finalPrice := FinalPrice(ServicePrice(service), markupType, markupValue);
    }

    method SetInternalNotes(notes: string)
      modifies this
      ensures internalNotes == notes
      ensures markupType == old(markupType) && markupValue == old(markupValue) && finalPrice == old(finalPrice)
    {
      internalNotes := notes;
    }

    /** The displayed net profit equals the guarded profit of the current inputs. */
    function ShownNetProfit(): (r: real)
      reads this
      requires Valid()
      ensures markupValue.NaN? ==> r == 0.0
      ensures markupType == Fixed && markupValue.Finite? ==> r == markupValue.value
      ensures markupType == Percent && markupValue.Finite? ==>
        r == ServicePrice(service) * markupValue.value / 100.0
    {
      NetProfit(finalPrice, ServicePrice(service))
    }

    /** handleAdd: forwards exactly the service and the pricing decision, with no id. */
    method HandleAdd() returns (draft: SaleDraft)
      requires Valid()
      ensures draft.service == service && draft.markupType == markupType && draft.markupValue == markupValue
      ensures draft.internalNotes == internalNotes
      ensures draft.finalPrice == Finite(FinalPrice(ServicePrice(service), markupType, markupValue))
    {
      draft := SaleDraft(service, markupValue, markupType, Finite(finalPrice), internalNotes);
    }
  }
}

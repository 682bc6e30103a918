/** The drawer in which the agent prices a flight and saves it as an
    opportunity (components/FlightSaleDrawer.tsx). Unlike the service drawer
    it neither coerces the price nor guards the profit, so a NaN spreads. */
module FlightSale {
  import opened Numbers
  import opened Types
  import opened Markup
  import ServiceSale
  import FlightCard

  /** The effect's result: `flight.price + profit`, unguarded. */
  function FinalPrice(price: Num, kind: MarkupType, markupValue: Num): (r: Num)
    ensures r.Finite? <==> price.Finite? && markupValue.Finite?
    ensures kind == Percent && r.Finite? ==>
      r.value == price.value + price.value * markupValue.value / 100.0
    ensures kind == Fixed && r.Finite? ==> r.value == price.value + markupValue.value
  {
    Plus(price, Profit(price, kind, markupValue))
  }

  /** "Sua Margem": `finalPrice - flight.price`. */
  function Margin(finalPrice: Num, price: Num): (m: Num)
    ensures m.Finite? <==> finalPrice.Finite? && price.Finite?
    ensures m.Finite? ==> price.value + m.value == finalPrice.value
  {
    Minus(finalPrice, price)
  }

  /** For a numeric price the margin shown is exactly the markup's profit (NaN included). */
  lemma MarginIsProfit(price: Num, kind: MarkupType, markupValue: Num)
    requires price.Finite?
    ensures Margin(FinalPrice(price, kind, markupValue), price) == Profit(price, kind, markupValue)
  {
  }

  /** On numbers the two drawers agree; given a NaN markup the service drawer falls
      back to the net cost while this one shows NaN. */
  lemma DrawersAgreeOnNumbers(price: real, kind: MarkupType, markupValue: Num)
    ensures markupValue.Finite? ==>
      FinalPrice(Finite(price), kind, markupValue) == Finite(ServiceSale.FinalPrice(price, kind, markupValue))
    ensures markupValue.NaN? ==>
      FinalPrice(Finite(price), kind, markupValue).NaN? && ServiceSale.FinalPrice(price, kind, markupValue) == price
  {
  }

  class FlightSaleDrawer {
    const flight: ServiceOption
    var markupType: MarkupType
    var markupValue: Num
    var finalPrice: Num
    var internalNotes: string

    /** The effect has run: finalPrice agrees with the flight price and the markup inputs. */
    ghost predicate Valid()
      reads this
    {
      finalPrice == FinalPrice(flight.price, markupType, markupValue)
    }

    /** Opening the drawer: percent markup of 10, empty notes, then the effect. */
    constructor (flight: ServiceOption)
      ensures Valid()
      ensures this.flight == flight
      ensures markupType == Percent && markupValue == Finite(10.0) && internalNotes == ""
    {
      this.flight := flight;
      markupType := Percent;
      markupValue := Finite(10.0);
      internalNotes := "";
      new;
      finalPrice := FinalPrice(flight.price, markupType, markupValue);
    }

    /** setMarkupType, followed by the effect's recomputation. */
    method SetMarkupType(kind: MarkupType)
      modifies this
      ensures Valid()
      ensures markupType == kind && markupValue == old(markupValue) && internalNotes == old(internalNotes)
    {
      markupType := kind;
      finalPrice := FinalPrice(flight.price, markupType, markupValue);
    }

    /** setMarkupValue(Number(input)), followed by the effect's recomputation. */
    method SetMarkupValue(v: Num)
      modifies this
      ensures Valid()
      ensures markupValue == v && markupType == old(markupType) && internalNotes == old(internalNotes)
    {
      markupValue := v;
      finalPrice := FinalPrice(flight.price, markupType, markupValue);
    }

    method SetInternalNotes(notes: string)
      modifies this
      ensures internalNotes == notes
      ensures markupType == old(markupType) && markupValue == old(markupValue) && finalPrice == old(finalPrice)
    {
      internalNotes := notes;
    }

    /** The margin badge under the final price. */
    function ShownMargin(): (m: Num)
      reads this
      requires Valid()
      ensures flight.price.Finite? ==> m == Profit(flight.price, markupType, markupValue)
      ensures flight.price.NaN? ==> m.NaN?
    {
      Margin(finalPrice, flight.price)
    }

    /** The duration line of the drawer. */
    function ShownDuration(): (r: string)
      reads this
      ensures flight.durationMinutes.None? ==> r == "0h 0m"
      ensures flight.durationMinutes.Some? ==> r == FlightCard.FormatDuration(flight.durationMinutes.value)
    {
      FlightCard.DurationText(flight.durationMinutes)
    }

    /** handleSave: one opportunity, stamped with the flight id and the save time,
        carrying the pricing decision unchanged; it is the one value emitted. */
    method HandleSave(now: nat, savedAt: string) returns (opp: Opportunity)
      requires Valid()
      ensures opp.id == StampedId(flight.id, now) && opp.flight == flight && opp.savedAt == savedAt
      ensures opp.markupValue == markupValue && opp.markupType == markupType
      ensures opp.finalPrice == FinalPrice(flight.price, markupType, markupValue)
      ensures opp.internalNotes == internalNotes
    {
      opp := Opportunity(StampedId(flight.id, now), flight, markupValue, markupType, finalPrice, internalNotes, savedAt);
    }
  }
}

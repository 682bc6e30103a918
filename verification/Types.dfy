/** The records and closed enumerations of the travel-quote tool (types.ts). */
module Types {
  import opened Text
  import opened Numbers

  /** An optional property (`x?: T` in TypeScript). */
  datatype Option<T> = None | Some(value: T)

  /** 'FLIGHT' | 'HOTEL' | 'EXPERIENCE' | 'TRANSFER' */
  datatype ServiceCategory = Flight | Hotel | Experience | Transfer {
    function Key(): string {
      match this
      case Flight => "FLIGHT"
      case Hotel => "HOTEL"
      case Experience => "EXPERIENCE"
      case Transfer => "TRANSFER"
    }
  }

  /** Reads a category key as it appears in a search reply. */
  function ParseServiceCategory(s: string): (c: Option<ServiceCategory>)
    ensures c.Some? ==> c.value.Key() == s
  {
    if s == "FLIGHT" then Some(Flight)
    else if s == "HOTEL" then Some(Hotel)
    else if s == "EXPERIENCE" then Some(Experience)
    else if s == "TRANSFER" then Some(Transfer)
    else None
  }

  /** The four keys are exactly the category names and are told apart. */
  lemma ServiceCategoryKeys(c: ServiceCategory)
    ensures ParseServiceCategory(c.Key()) == Some(c)
  {
  }

  /** Different categories never share a key. */
  lemma ServiceCategoryKeyInjective(c1: ServiceCategory, c2: ServiceCategory)
    requires c1.Key() == c2.Key()
    ensures c1 == c2
  {
    ServiceCategoryKeys(c1);
    ServiceCategoryKeys(c2);
  }

  /** `s || fallback` on an optional string: undefined and "" are falsy. */
  function OrDefault(s: Option<string>, fallback: string): (r: string)
    ensures s.None? || s == Some("") ==> r == fallback
    ensures s.Some? && s.value != "" ==> r == s.value
  {
    if s.Some? && s.value != "" then s.value else fallback
  }

  /** 'ECONOMIC' | 'STANDARD' | 'LUXURY' */
  datatype TravelCategory = Economic | Standard | Luxury

  /** 'VALUE' | 'CHEAPEST' | 'FASTEST' | 'PREMIUM' | 'NONE' */
  datatype RecommendationType = Value | Cheapest | Fastest | Premium | NoRecommendation

  /** canalContratacao: 'SITE' | 'TELEFONE' | 'WHATSAPP' | 'CONSOLIDADORA' */
  datatype ContractChannel = Site | Telefone | Whatsapp | Consolidadora

  /** tipoReserva: 'DIRETA NO SITE' | 'VIA TELEFONE' | 'VIA WHATSAPP' | 'VIA AGENTE' */
  datatype ReservationType = DiretaNoSite | ViaTelefone | ViaWhatsapp | ViaAgente

  /** 'percent' | 'fixed' */
  datatype MarkupType = Percent | Fixed

  /** One offer returned by the search. Numbers the reply may leave out or
      send as garbage (price) are Num; optional fields are Option. */
  datatype ServiceOption = ServiceOption(
    id: string,
    category: ServiceCategory,
    title: string,
    provider: string,
    price: Num,
    currency: string,
    location: Option<string>,
    origin: Option<string>,
    destination: Option<string>,
    departureTime: Option<string>,
    arrivalTime: Option<string>,
    airline: Option<string>,
    stops: Option<int>,
    duration: Option<string>,
    durationMinutes: Option<int>,
    cabinClass: Option<string>,
    details: string,
    baggageOrType: Option<string>,
    fareRulesOrPolicy: string,
    searchIdentifier: string,
    ranking: int,
    recommendationType: RecommendationType,
    justification: string,
    fontePesquisa: string,
    origemInformacao: string,
    telefoneFornecedor: Option<string>,
    whatsappFornecedor: Option<string>,
    canalContratacao: ContractChannel,
    contatoReserva: string,
    tipoReserva: ReservationType,
    linkDireto: Option<string>,
    diaDaSemana: Option<string>,
    horarioSimplificado: Option<string>
  )

  /** A priced line of the quote. */
  datatype PackageItem = PackageItem(
    id: string,
    service: ServiceOption,
    markupValue: Num,
    markupType: MarkupType,
    finalPrice: Num,
    internalNotes: string,
    customTitle: Option<string>,
    customDescription: Option<string>
  )

  /** A saved flight-pricing decision. */
  datatype Opportunity = Opportunity(
    id: string,
    flight: ServiceOption,
    markupValue: Num,
    markupType: MarkupType,
    finalPrice: Num,
    internalNotes: string,
    savedAt: string
  )

  /** The search form; categories is a plain list, so the type allows duplicates. */
  datatype SearchParams = SearchParams(
    destination: string,
    origin: Option<string>,
    startDate: string,
    endDate: string,
    passengers: int,
    categories: seq<ServiceCategory>,
    travelCategory: Option<TravelCategory>
  )

  /** `${base}-${Date.now()}`: the id given to a new package item or opportunity. */
  function StampedId(base: string, now: nat): (id: string)
    ensures |id| > |base| + 1 && id[..|base|] == base && id[|base|] == '-'
    ensures id[|base| + 1..] == NatToString(now)
  {
    base + "-" + NatToString(now)
  }

  /** The id determines both the source id and the timestamp: the digits of the
      stamp hold no '-', so the last '-' is the separator. */
  lemma StampedIdInjective(b1: string, t1: nat, b2: string, t2: nat)
    requires StampedId(b1, t1) == StampedId(b2, t2)
    ensures b1 == b2 && t1 == t2
  {
    if |NatToString(t1)| <= |NatToString(t2)| {
      StampedIdSplit(b1, t1, b2, t2);
    } else {
      StampedIdSplit(b2, t2, b1, t1);
    }
  }

  lemma StampedIdSplit(b1: string, t1: nat, b2: string, t2: nat)
    requires StampedId(b1, t1) == StampedId(b2, t2)
    requires |NatToString(t1)| <= |NatToString(t2)|
    ensures b1 == b2 && t1 == t2
  {
    var s := StampedId(b1, t1);
    var d1, d2 := NatToString(t1), NatToString(t2);
    assert s == b1 + "-" + d1 && s == b2 + "-" + d2;
    if |d1| < |d2| {
      assert false;
    }
    assert d1 == s[|s| - |d1|..] == d2;
    assert b1 == s[..|b1|] == b2;
    NatToStringInjective(t1, t2);
  }
}

/** The search service (geminiService.ts): it asks the AI collaborator for
    offers and tags every offer in the parsed reply with the key of the
    category it was listed under. The collaborator call and JSON.parse are
    inputs here; the prompt defaults and the normalisation are modelled. */
module GeminiService {
  import opened Text
  import opened Types

  /** A parsed JSON value. JSON.parse never yields NaN or undefined. */
  datatype Json =
    | JNull
    | JBool(b: bool)
    | JNumber(n: real)
    | JString(s: string)
    | JArray(items: seq<Json>)
    | JObject(fields: map<string, Json>)

  /** The property the normalisation writes on every offer. */
  const CategoryField := "category"

  // ---------------------------------------------------------------------------
  // Prompt defaults (the prompt wording itself is not modelled)

  /** `params.travelCategory ? categoryLabels[params.travelCategory] : 'PADRÃO'` */
  function TierLabel(tier: Option<TravelCategory>): (shown: string)
    ensures shown == "PADRÃO" <==> tier.None?
  {
    match tier
    case Some(Economic) => "ECONÔMICO"
    case Some(Standard) => "CUSTO-BENEFÍCIO"
    case Some(Luxury) => "LUXO/PREMIUM"
    case None => "PADRÃO"
  }

  /** The three tiers and the absent tier are all told apart. */
  lemma TierLabelInjective(a: Option<TravelCategory>, b: Option<TravelCategory>)
    requires TierLabel(a) == TierLabel(b)
    ensures a == b
  {
  }

  /** `params.origin || 'Qualquer aeroporto'` */
  function OriginLabel(origin: Option<string>): (shown: string)
    ensures shown != ""
    ensures origin.Some? && origin.value != "" ==> shown == origin.value
    ensures shown == "Qualquer aeroporto" <==> origin.None? || origin.value in {"", "Qualquer aeroporto"}
  {
    OrDefault(origin, "Qualquer aeroporto")
  }

  // ---------------------------------------------------------------------------
  // Own properties: what Object.keys enumerates and what `{...x}` copies

  /** The index-keyed properties "0", "1", ... of an array or a string. */
  function IndexKeyed(elems: seq<Json>): (props: map<string, Json>)
    ensures forall i :: 0 <= i < |elems| ==> NatToString(i) in props && props[NatToString(i)] == elems[i]
    ensures forall k :: k in props ==> exists i :: 0 <= i < |elems| && k == NatToString(i)
  {
    NatToStringInjectiveAll();
    map i | 0 <= i < |elems| :: NatToString(i) := elems[i]
  }

  /** Own enumerable properties of a parsed value: an object's fields, the
      indices of an array or of a string, and none for the other values. */
  function OwnProperties(v: Json): (props: map<string, Json>)
    ensures v.JObject? ==> props == v.fields
    ensures v.JArray? ==> props == IndexKeyed(v.items)
    ensures v.JString? ==> props == IndexKeyed(seq(|v.s|, i requires 0 <= i < |v.s| => JString([v.s[i]])))
    ensures v.JNull? || v.JBool? || v.JNumber? ==> props == map[]
  {
    match v
    case JObject(fields) => fields
    case JArray(items) => IndexKeyed(items)
    case JString(s) => IndexKeyed(seq(|s|, i requires 0 <= i < |s| => JString([s[i]])))
    case _ => map[]
  }

  // ---------------------------------------------------------------------------
  // Normalisation of the reply

  /** `({ ...item, category: cat })`: the item's own properties, then the key;
      a category the item already had is overwritten. */
  function TagItem(cat: string, item: Json): (r: Json)
    ensures r.JObject?
    ensures CategoryField in r.fields && r.fields[CategoryField] == JString(cat)
    ensures forall k :: k != CategoryField ==>
      (k in r.fields <==> k in OwnProperties(item)) &&
      (k in r.fields ==> r.fields[k] == OwnProperties(item)[k])
  {
    JObject(OwnProperties(item)[CategoryField := JString(cat)])
  }

  /** `results[cat].map(item => ({ ...item, category: cat }))` */
  function TagItems(cat: string, items: seq<Json>): (r: seq<Json>)
    ensures |r| == |items|
    ensures forall i :: 0 <= i < |items| ==> r[i] == TagItem(cat, items[i])
  {
    seq(|items|, i requires 0 <= i < |items| => TagItem(cat, items[i]))
  }

  /** One entry of the reply after normalisation: arrays are tagged, anything else is kept. */
  function TagValue(cat: string, v: Json): Json {
    if v.JArray? then JArray(TagItems(cat, v.items)) else v
  }

  /** The whole reply after normalisation. */
  function Tagged(results: map<string, Json>): (r: map<string, Json>)
    ensures r.Keys == results.Keys
    ensures forall cat :: cat in r ==> r[cat] == TagValue(cat, results[cat])
  {
    map cat | cat in results :: TagValue(cat, results[cat])
  }

  /** Every item under an array-valued key is an object whose category is that
      key and whose other properties are the item's own; arrays keep their
      length and order, and every other value is left as it was. */
  lemma TaggedShape(results: map<string, Json>, cat: string)
    requires cat in results
    ensures var v, w := results[cat], Tagged(results)[cat];
      v.JArray? ==>
        w.JArray? && |w.items| == |v.items| &&
        forall i :: 0 <= i < |v.items| ==>
          w.items[i].JObject? &&
          w.items[i].fields[CategoryField] == JString(cat) &&
          w.items[i].fields - {CategoryField} == OwnProperties(v.items[i]) - {CategoryField}
    ensures !results[cat].JArray? ==> Tagged(results)[cat] == results[cat]
  {
    var v, w := results[cat], Tagged(results)[cat];
    if v.JArray? {
      forall i | 0 <= i < |v.items|
        ensures w.items[i].fields - {CategoryField} == OwnProperties(v.items[i]) - {CategoryField}
      {
        var f, g := w.items[i].fields - {CategoryField}, OwnProperties(v.items[i]) - {CategoryField};
        assert forall k :: k in f <==> k in g;
      }
    }
  }

  /** Normalising an already normalised reply changes nothing. */
  lemma TaggedIdempotent(results: map<string, Json>)
    ensures Tagged(Tagged(results)) == Tagged(results)
  {
    var once := Tagged(results);
    forall cat | cat in once ensures TagValue(cat, once[cat]) == once[cat] {
      var v := results[cat];
      if v.JArray? {
        var items := TagItems(cat, v.items);
        forall i | 0 <= i < |items| ensures TagItem(cat, items[i]) == items[i] {
          assert OwnProperties(items[i])[CategoryField := JString(cat)] == items[i].fields;
        }
      }
    }
  }

  /** The forEach over Object.keys(results) that reassigns each array-valued entry in place. */
  method NormalizeResults(parsed: map<string, Json>) returns (results: map<string, Json>)
    ensures results == Tagged(parsed)
  {
    results := parsed;
    var pending := parsed.Keys;
    while pending != {}
      invariant pending <= parsed.Keys
      invariant results.Keys == parsed.Keys
      invariant forall k :: k in results ==>
        results[k] == if k in pending then parsed[k] else TagValue(k, parsed[k])
      decreases pending
    {
      var cat :| cat in pending;
      if results[cat].JArray? {
        results := results[cat := JArray(TagItems(cat, results[cat].items))];
      }
      pending := pending - {cat};
    }
  }

  // ---------------------------------------------------------------------------
  // The service call

  /** What JSON.parse does with the reply text. */
  datatype ParseOutcome = Parsed(value: Json) | SyntaxError

  /** What the collaborator call does: throw, or answer with an optional text. */
  datatype Reply = CallFailed | Replied(text: Option<string>)

  /** What searchTravelServices gives its caller: `{ results }`, or a rejection. */
  datatype SearchOutcome = Returned(results: map<string, Json>) | Threw

  /** `response.text || '{}'`: JSON.parse is never handed an empty text. */
  function ResponseText(text: Option<string>): (t: string)
    ensures |t| > 0
    ensures text.None? ==> t == "{}"
    ensures text.Some? ==> t == text.value || t == "{}"
    ensures text.Some? && text.value != "" ==> t == text.value
  {
    OrDefault(text, "{}")
  }

  /** The results handed back once the client exists: whatever goes wrong
      inside the try, the call, JSON.parse, or Object.keys on a null reply,
      leaves the empty map; otherwise the parsed value's entries, tagged. */
  function RepliedResults(reply: Reply, parse: string -> ParseOutcome): (r: map<string, Json>)
    ensures reply.CallFailed? ==> r == map[]
    ensures reply.Replied? && parse(ResponseText(reply.text)).SyntaxError? ==> r == map[]
    ensures reply.Replied? && parse(ResponseText(reply.text)) == Parsed(JNull) ==> r == map[]
    ensures reply.Replied? ==>
      var p := parse(ResponseText(reply.text));
      p.Parsed? && p.value.JObject? ==> r == Tagged(p.value.fields)
    ensures Tagged(r) == r
  {
    match reply
    case CallFailed => map[]
    case Replied(text) =>
      match parse(ResponseText(text))
      case SyntaxError => map[]
      case Parsed(v) =>
        if v.JNull? then map[]
        else
          TaggedIdempotent(OwnProperties(v));
          Tagged(OwnProperties(v))
  }

  /** A missing or empty reply text is read as `{}` and yields no results. */
  lemma EmptyReplyGivesNoResults(text: Option<string>, parse: string -> ParseOutcome)
    requires parse("{}") == Parsed(JObject(map[]))
    requires text.None? || text == Some("")
    ensures RepliedResults(Replied(text), parse) == map[]
  {
  }

  /** searchTravelServices: only a client that cannot be constructed, outside
      the try, makes the call reject; every later failure is caught. */
  method SearchTravelServices(clientCreated: bool, reply: Reply, parse: string -> ParseOutcome)
    returns (outcome: SearchOutcome)
    ensures outcome.Threw? <==> !clientCreated
    ensures clientCreated ==> outcome == Returned(RepliedResults(reply, parse))
  {
    if !clientCreated {
      return Threw;
    }
    match reply
    case CallFailed =>
      outcome := Returned(map[]);
    case Replied(text) =>
      match parse(ResponseText(text))
      case SyntaxError =>
        outcome := Returned(map[]);
      case Parsed(v) =>
        if v.JNull? {
          outcome := Returned(map[]);
        } else {
          var results := NormalizeResults(OwnProperties(v));
          outcome := Returned(results);
        }
  }
}

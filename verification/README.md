# Travel-quote tool: a verified model of its pricing and quote logic

The tool is a single-page screen for a travel agent. The agent fills in a search form (destination, origin, dates, service categories, travel tier). An AI collaborator returns offers grouped by category. The agent opens an offer in a sale drawer, picks a markup (percent or fixed) and adds the priced offer to a quote ("pacote"), whose total is shown. The repository also holds a flight drawer, which prices a flight and saves it as an "opportunity", and a flight card, which shows a recommendation badge, the stop count, airline initials and the duration; the screen mounts neither of them.

This project models the logic behind that screen in Dafny:

- `Numbers.dfy`: JavaScript numbers as the pricing code sees them, `Finite(real) | NaN`, with `+ - * /` and `Number(x) || 0`.
- `Text.dfy`: how template strings print integers (`${n}`), a parser that undoes it, and ASCII upper-casing.
- `Seqs.dfy`: `Array.prototype.filter` and duplicate-freedom.
- `Types.dfy`: the records and closed enumerations of `types.ts`, plus the `${id}-${timestamp}` ids.
- `Markup.dfy`: the profit formula shared by both drawers.
- `ServiceSaleDrawer.dfy`: the service drawer, as a class whose fields are the drawer's state. The price is coerced and a NaN profit is taken as 0.
- `FlightSaleDrawer.dfy`: the flight drawer, as a class. The price is used as given and nothing is guarded, so NaN spreads.
- `FlightCard.dfy`: the card's display rules.
- `GeminiService.dfy`: the search service, split into two parts.
  - JSON values and JavaScript's "own properties".
  - The loop that tags every offer with its category key, and the way every failure inside the `try` becomes an empty result.
- `App.dfy`: the screen, split into two parts.
  - Pure rules: the quote total, add and remove, the category toggle, validation before a search, and folding result sections.
  - Class `AppState`: its fields are the screen's `useState` variables and its methods are the event handlers.

Each method of `AppState` states its entire new state, in the form `State() == old(State()).(field := ...)`, so it is explicit that nothing else changes. The drawers' methods state every field's new value one by one and keep the drawer's invariant `Valid()`: the final price always agrees with the markup.

Three things the screen depends on are inputs to the model rather than parts of it:

- The collaborator's reply and `JSON.parse` are parameters (`Reply` and `parse`).
- The clock is a `now: nat` parameter.
- The default departure date is a constructor argument.

The flight drawer defines its own copy of `formatDuration`, identical to the card's (`components/FlightSaleDrawer.tsx:28-32` and `components/FlightCard.tsx:30-34`). Both are modelled by `FlightCard.DurationParts` and `FlightCard.DurationText`.

## Model

| member | source | states |
|---|---|---|
| Numbers.OrZero | components/ServiceSaleDrawer.tsx:19 | `Number(x) \|\| 0`: a non-zero number is kept; NaN and 0 become 0 |
| Numbers.Plus | components/FlightSaleDrawer.tsx:25 | the sum is a number exactly when both operands are, and then it is their sum |
| Text.NatToString | components/FlightCard.tsx:33 | `${n}` for n ≥ 0 is a non-empty string of digits without a leading zero |
| Text.ParseNatToString | components/FlightCard.tsx:33 | reading the printed digits back gives the number again |
| Text.IntToString | components/FlightCard.tsx:26 | `${i}` starts with '-' exactly when i < 0, and is all digits otherwise |
| Text.IntToStringRoundTrip | components/FlightCard.tsx:26 | every printed integer parses back to itself |
| Text.IntToStringInjective | components/FlightCard.tsx:26 | different integers never print the same |
| Text.ToUpper | components/FlightCard.tsx:48 | upper-casing keeps the length and maps every character through the ASCII rule |
| Seqs.Filter | App.tsx:220 | `filter` keeps exactly the accepted elements and never lengthens the list |
| Seqs.FilterAppend | App.tsx:46 | filtering a concatenation is the concatenation of the filtered parts, so order is kept |
| Seqs.FilterMultiset | App.tsx:220 | an accepted element keeps all its occurrences; a rejected one has none left |
| Seqs.FilterKeepsAll | App.tsx:220 | a filter that rejects nothing returns the same list |
| Seqs.FilterNoDuplicates | App.tsx:46 | filtering keeps a duplicate-free list duplicate-free |
| Types.ParseServiceCategory | types.ts:2 | a key that is read back is the key of the category it names |
| Types.ServiceCategoryKeys | types.ts:2 | the four keys name exactly the four categories and tell them apart |
| Types.ServiceCategoryKeyInjective | types.ts:2 | two categories with the same key are the same category |
| Types.OrDefault | geminiService.ts:19 | `s \|\| fallback`: an absent or empty string gives the fallback ("Qualquer aeroporto" for the origin, "{}" for the reply text), any other string is kept |
| Types.StampedId | App.tsx:245 | the id is the source id, then '-', then exactly the timestamp printed as `${now}` |
| Types.StampedIdInjective | App.tsx:245 | equal stamped ids have equal source ids and equal timestamps |
| Markup.Profit | components/ServiceSaleDrawer.tsx:22-24 | percent: profit × 100 = price × value, a number exactly when both are; fixed: the markup value itself |
| ServiceSale.ServicePrice | components/ServiceSaleDrawer.tsx:19 | the service price coerced: the number itself, or 0 for NaN |
| ServiceSale.FinalPrice | components/ServiceSaleDrawer.tsx:21-28 | net cost plus `cost × v / 100` (percent) or plus `v` (fixed); a NaN markup leaves the net cost |
| ServiceSale.NetProfit | components/ServiceSaleDrawer.tsx:41 | both operands are always numbers, so the `\|\| 0` guards change nothing and the profit is final price minus cost |
| ServiceSale.NetProfitIsProfit | components/ServiceSaleDrawer.tsx:41 | the net profit shown equals the markup's profit, or 0 when that profit is NaN |
| ServiceSale.PricingScenarios | components/ServiceSaleDrawer.tsx:21-28 | 1000 at 10 % sells for 1100 (margin 100); 500 with a fixed 80 sells for 580 (margin 80) |
| ServiceSale.NonPositiveMarkupAccepted | components/ServiceSaleDrawer.tsx:22-27 | a zero or negative markup is accepted and gives a price at or below cost |
| ServiceSale.ServiceSaleDrawer.constructor | components/ServiceSaleDrawer.tsx:14-17 | defaults percent and 15 with empty notes, and the final price already agrees with them |
| ServiceSale.ServiceSaleDrawer.SetMarkupType | components/ServiceSaleDrawer.tsx:21-28 | the new type is stored and the final price is recomputed; value and notes are unchanged |
| ServiceSale.ServiceSaleDrawer.SetMarkupValue | components/ServiceSaleDrawer.tsx:21-28 | the new value is stored and the final price is recomputed; type and notes are unchanged |
| ServiceSale.ServiceSaleDrawer.SetInternalNotes | components/ServiceSaleDrawer.tsx:17 | only the notes change |
| ServiceSale.ServiceSaleDrawer.ShownNetProfit | components/ServiceSaleDrawer.tsx:41 | the profit shown is 0 for a NaN markup, v for fixed, and price × v / 100 for percent |
| ServiceSale.ServiceSaleDrawer.HandleAdd | components/ServiceSaleDrawer.tsx:30-39 | the draft carries exactly the service, the markup type and value, the computed final price and the notes |
| FlightSale.FinalPrice | components/FlightSaleDrawer.tsx:21-26 | price plus profit, a number exactly when price and markup are; percent and fixed formulas |
| FlightSale.Margin | components/FlightSaleDrawer.tsx:143 | the margin is a number exactly when both prices are, and then the cost plus the margin is the final price |
| FlightSale.MarginIsProfit | components/FlightSaleDrawer.tsx:143 | for a numeric price, the margin shown is exactly the markup's profit |
| FlightSale.DrawersAgreeOnNumbers | components/FlightSaleDrawer.tsx:21-26 | with a numeric markup the two drawers compute the same price; with NaN the flight drawer shows NaN and the service drawer shows the net cost |
| FlightSale.FlightSaleDrawer.constructor | components/FlightSaleDrawer.tsx:15-18 | defaults percent and 10 with empty notes, and the final price agrees with them |
| FlightSale.FlightSaleDrawer.SetMarkupType | components/FlightSaleDrawer.tsx:21-26 | the new type is stored and the final price is recomputed; value and notes are unchanged |
| FlightSale.FlightSaleDrawer.SetMarkupValue | components/FlightSaleDrawer.tsx:21-26 | the new value is stored and the final price is recomputed; type and notes are unchanged |
| FlightSale.FlightSaleDrawer.SetInternalNotes | components/FlightSaleDrawer.tsx:18 | only the notes change |
| FlightSale.FlightSaleDrawer.ShownMargin | components/FlightSaleDrawer.tsx:143 | the margin is the markup's profit for a numeric price, and NaN otherwise |
| FlightSale.FlightSaleDrawer.ShownDuration | components/FlightSaleDrawer.tsx:81 | a flight without a duration shows "0h 0m"; one with a duration shows the formatted duration |
| FlightSale.FlightSaleDrawer.HandleSave | components/FlightSaleDrawer.tsx:40-51 | the one opportunity emitted has id `${flight.id}-${now}`, the flight, the unchanged pricing decision and the save time |
| FlightCard.Label | components/FlightCard.tsx:21-28 | PREMIUM and NONE give "Opção #" followed by the ranking; the other three never start that way |
| FlightCard.HighlightedLabelFixed | components/FlightCard.tsx:21-28 | the VALUE, CHEAPEST and FASTEST labels do not depend on the ranking |
| FlightCard.LabelDistinguishes | components/FlightCard.tsx:21-28 | a label identifies a highlighted kind, or else the ranking it shows |
| FlightCard.BadgeStyle | components/FlightCard.tsx:12-19 | exactly VALUE, CHEAPEST and FASTEST get a highlighted style, the one ending in a "/30" ring |
| FlightCard.BadgeStyleCases | components/FlightCard.tsx:12-19 | VALUE, CHEAPEST and FASTEST have distinct styles; PREMIUM and NONE share the default |
| FlightCard.JsRemainder | components/FlightCard.tsx:32 | `%` gives a remainder with the dividend's sign and smaller than the divisor, which recombines with the quotient truncated toward zero |
| FlightCard.DurationParts | components/FlightCard.tsx:30-34 | h is the floor of mins / 60; for mins ≥ 0, 0 ≤ m < 60 and h × 60 + m = mins; below 0, -60 < m ≤ 0 and m recombines with the truncated quotient, not with h |
| FlightCard.DurationPartsNegative | components/FlightCard.tsx:31-32 | below zero the floor and the truncating remainder do not recombine: -90 gives -2 and -30 |
| FlightCard.FormatDuration | components/FlightCard.tsx:30-34 | under an hour gives "0h " and the minutes; a whole number of hours gives the hours and "0m" |
| FlightCard.DurationText | components/FlightCard.tsx:72 | a missing duration renders as "0h 0m"; a present one is formatted as it is |
| FlightCard.FormatDurationInjective | components/FlightCard.tsx:30-34 | for durations ≥ 0 the text gives back the number of minutes |
| FlightCard.StopsText | components/FlightCard.tsx:67 | 0 gives "Conexão Direta", 1 gives "1 Escala", a missing count gives "0 Escalas", any other n gives "n Escalas" |
| FlightCard.StopsTextInjective | components/FlightCard.tsx:67 | different stop counts never share a text |
| FlightCard.AirlineBadge | components/FlightCard.tsx:48 | "FL" for a missing or empty airline, otherwise its first two characters (or fewer), upper-cased |
| GeminiService.TierLabel | geminiService.ts:9-13 | "PADRÃO" is shown exactly when no tier is chosen |
| GeminiService.OriginLabel | geminiService.ts:19 | the origin shown is never empty: a given origin is kept, and "Qualquer aeroporto" appears exactly when none is given (or that very text is) |
| GeminiService.TierLabelInjective | geminiService.ts:9-13 | the three tier labels and the absent-tier "PADRÃO" are all different |
| GeminiService.IndexKeyed | geminiService.ts:67 | an array's own properties are its indices "0", "1", … holding its elements, and nothing else |
| GeminiService.OwnProperties | geminiService.ts:67 | the spread copies an object's fields, the indices of an array or string, and nothing for other values |
| GeminiService.TagItem | geminiService.ts:67 | the tagged item is an object whose category is the key and whose other fields are the item's own; an earlier category is overwritten |
| GeminiService.TagItems | geminiService.ts:67 | `map` keeps the length and tags each item in place |
| GeminiService.Tagged | geminiService.ts:65-69 | tagging keeps the key set; each entry is tagged if it is an array and kept otherwise |
| GeminiService.TaggedShape | geminiService.ts:65-69 | every item under an array key gets that key as its category and keeps its other fields, arrays keep their length and order, and non-arrays are unchanged |
| GeminiService.TaggedIdempotent | geminiService.ts:65-69 | tagging an already tagged reply changes nothing |
| GeminiService.NormalizeResults | geminiService.ts:65-69 | the in-place loop over the keys ends with exactly the tagged reply |
| GeminiService.ResponseText | geminiService.ts:64 | the text handed to JSON.parse is never empty: a missing text becomes "{}", a non-empty one is kept, an empty one is replaced by "{}" |
| GeminiService.RepliedResults | geminiService.ts:29-75 | a failed call, a syntax error or a null reply all give the empty map; an object is tagged; the result is always already tagged |
| GeminiService.EmptyReplyGivesNoResults | geminiService.ts:64 | a missing or empty reply text yields no results |
| GeminiService.SearchTravelServices | geminiService.ts:7-75 | the call rejects exactly when the client cannot be built; otherwise it returns the replied results |
| App.LineAmount | App.tsx:17 | a line adds nothing exactly when its price is NaN or 0 |
| App.Total | App.tsx:17 | the empty quote totals 0; a quote of non-negative lines has a non-negative total |
| App.TotalAppend | App.tsx:17 | the total of two quotes joined is the sum of their totals |
| App.TotalCons | App.tsx:17 | the total of an item followed by a quote is the item's amount plus the quote's total |
| App.TotalSplit | App.tsx:17 | splitting a quote by any test splits its total into the two parts |
| App.TotalPermutation | App.tsx:17 | any rearrangement of the lines has the same total |
| App.TotalScenarios | App.tsx:17 | 1100 and 580 total 1680, and a NaN-priced line between them adds nothing |
| App.WithId | App.tsx:245 | the added item is the drawer's draft unchanged, with the stamped id and no custom title or description |
| App.WithIdDistinct | App.tsx:245 | two added items share an id only if they come from the same service at the same instant |
| App.RemoveById | App.tsx:220 | removal keeps exactly the items with another id |
| App.RemoveByIdCounts | App.tsx:220 | every item with another id keeps all its occurrences; no item with the id is left |
| App.RemoveAbsentId | App.tsx:220 | removing an id that no item carries leaves the quote unchanged |
| App.RemoveByIdAppend | App.tsx:220 | removal acts part by part, so the surviving items keep their order |
| App.AddThenRemove | App.tsx:220 | adding an item with a fresh id and then removing that id restores the quote |
| App.TotalAfterRemove | App.tsx:220 | removal lowers the total by exactly the amounts of the removed items |
| App.Toggle | App.tsx:42-49 | the toggled category is present exactly when it was absent; others are unaffected; an absent one is appended at the end |
| App.ToggleOffKeepsOrder | App.tsx:42-49 | toggling off a category removes it where it stood and keeps the others in their order |
| App.ToggleTwiceAbsent | App.tsx:42-49 | toggling an absent category twice restores the exact list |
| App.TogglePreservesNoDuplicates | App.tsx:42-49 | a duplicate-free list stays duplicate-free |
| App.LexLessIrreflexive | App.tsx:54 | no date is before itself |
| App.LexLessAsymmetric | App.tsx:54 | no two dates are each before the other |
| App.LexLessTransitive | App.tsx:54 | the date order is transitive |
| App.LexLessCommonPrefix | App.tsx:54 | dates sharing a prefix compare by what follows it |
| App.DateBefore | App.tsx:54 | a date before another is a real date, differs from it, and is not after it |
| App.Validate | App.tsx:54-62 | reversed dates reject first; otherwise an empty destination rejects; otherwise the search is accepted |
| App.LaterReturnAccepted | App.tsx:54-62 | a return after the departure, with a destination, is accepted |
| App.SameDayOrOpenReturnAccepted | App.tsx:54 | a same-day or missing return date is not rejected |
| App.ValidateReadsOnlyDatesAndDestination | App.tsx:54-62 | the categories (even none), tier, origin and passengers never affect validation |
| App.ReversedDatesReportedFirst | App.tsx:54-62 | a reversed range is reported even when the destination is missing too |
| App.CollapseToggled | App.tsx:181 | a header click flips that section's collapsed state and leaves every other entry unchanged |
| App.CollapseToggledTwice | App.tsx:181 | two clicks restore every section's collapsed state |
| App.AllOpen | App.tsx:69-71 | after a search every returned key has an entry, and every section is open |
| App.AppState.constructor | App.tsx:9-33 | the initial state: not loading, search tab, no results, empty quote, no selection, and the default form |
| App.AppState.ToggleCategory | App.tsx:42-49 | only the form's categories change, to the toggled list, and they stay duplicate-free |
| App.AppState.SetDestination | App.tsx:108 | only the form's destination changes |
| App.AppState.SetOrigin | App.tsx:112 | only the form's origin changes |
| App.AppState.SetStartDate | App.tsx:122 | only the departure date changes |
| App.AppState.SetEndDate | App.tsx:127 | only the return date changes |
| App.AppState.SetTravelCategory | App.tsx:159 | only the travel tier changes |
| App.AppState.SetActiveTab | App.tsx:94-95 | only the tab changes |
| App.AppState.SelectService | App.tsx:191 | only the selected service changes; the drawer opens on it |
| App.AppState.CloseDrawer | App.tsx:244 | only the selection is cleared |
| App.AppState.AddToPackage | App.tsx:245 | exactly one stamped item is appended after the unchanged earlier ones, and the total grows by its amount |
| App.AppState.RemoveFromPackage | App.tsx:220 | only the quote changes, losing exactly the items with that id, and the total drops by their amounts |
| App.AppState.ToggleCollapsed | App.tsx:181 | only the collapse map changes, flipped at that key |
| App.AppState.ConfirmSale | App.tsx:242-246 | the drawer's pricing decision is appended with a stamped id and the drawer closes; nothing else changes |
| App.AppState.StartSearch | App.tsx:54-65 | a rejected form changes nothing; an accepted one sets loading and clears the results |
| App.AppState.CompleteSearch | App.tsx:66-77 | a reply sets results, opens every returned section and selects the search tab; a rejection only clears loading |
| App.AppState.HandleSearch | App.tsx:51-78 | the whole search: rejected, nothing changes; accepted, the results are the service's, every section is open and loading ends false |

## Left out

- Floating point: prices are exact reals. IEEE rounding and the infinities are not modelled, but NaN is.
- First render: the transient state in which a drawer shows a final price of 0 before its effect has run. The constructors apply the effect at once.
- Hook ordering: the early `return null` placed before the drawers' hooks, and the fact that React keeps a drawer's state across a change of its prop. The drawer's service or flight is a constant.
- `components/ServiceCard.tsx` is not part of this model. It only picks badge classes and emojis; its `Number(price) || 0` is `Numbers.OrZero`.
- The AI call itself: its prompt wording, its response schema and the network. Its outcome is the `Reply` parameter, and `JSON.parse` is the `parse` parameter.
- `window.open`, the WhatsApp texts, `window.print`, `alert` and `console.error`. These are messages to the host, not state.
- Time: `Date.now()`, `new Date()`, `toISOString`, `getDefaultStartDate` and `handleQuickDate`. Timestamps and the default date are parameters. The quick-date buttons (`+3/+5/+7/+15 dias`) are not modelled, because they are calendar arithmetic that depends on the timezone.
- Dates: only `YYYY-MM-DD` values are compared, as the date inputs produce them. Calendar validity, such as month 13, is not checked. Only the values an `<input type="date">` produces, "" or `YYYY-MM-DD`, are modelled; other strings that `Date` would also parse, such as "2025/06/05", are not.
- `toLocaleString('pt-BR')` number formatting.
- Concurrency: async/await and the race between two overlapping searches. A search is modelled as a start followed by a completion.
- Unicode beyond ASCII: `toUpperCase` is modelled for the ASCII letters only, and strings are sequences of characters rather than UTF-16 code units.
- Numbers in the reply: fractional durations and stop counts are not modelled (`Option<int>`), and the ranking is an `int`, so a fractional or missing ranking (which would show "Opção #undefined") is not modelled.
- Object key order is not modelled (maps are unordered).
- A price that arrives as a string is not modelled.
- `onSaveOpportunity` and the flight drawer's `onClose`: neither `FlightSaleDrawer` nor `FlightCard` is mounted by the screen in this repository. Both are modelled on their own, and `HandleSave` returns the single opportunity the drawer would emit.
- A parsed reply that is not null and not an object (a number, a boolean, a string or an array) is handed back by the service as that value itself; the model hands back its own-property map instead (`GeminiService.RepliedResults`). The screen reads the results only through `Object.keys` and `Object.entries`, which see the same properties either way.
- FlightCard.FormatDuration: states the text for durations under an hour and for whole hours only. The general case is covered by `FlightCard.DurationParts` and `FlightCard.FormatDurationInjective`.
- GeminiService.IndexKeyed: does not state the number of keys. The keys are stated to be exactly the printed indices.
- App.AddThenRemove: requires that no earlier item already has the new id. Two additions of the same service in the same millisecond would share an id, and removing one would remove both.

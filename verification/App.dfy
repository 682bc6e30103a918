/** The quote screen (App.tsx): the search form's rules, the search itself,
    the result sections that fold open and shut, and the quote ("pacote")
    that the agent builds item by item. */
module App {
  import opened Text
  import opened Seqs
  import opened Numbers
  import opened Types
  import opened GeminiService
  import ServiceSale

  // ---------------------------------------------------------------------------
  // The quote total

  /** `Number(item.finalPrice) || 0` */
  function LineAmount(item: PackageItem): (amount: real)
    ensures amount == 0.0 <==> item.finalPrice.NaN? || item.finalPrice == Finite(0.0)
  {
    OrZero(item.finalPrice)
  }

  /** `currentPackage.reduce((acc, item) => acc + (Number(item.finalPrice) || 0), 0)` */
  function Total(items: seq<PackageItem>): (t: real)
    ensures items == [] ==> t == 0.0
    ensures (forall i :: 0 <= i < |items| ==> LineAmount(items[i]) >= 0.0) ==> t >= 0.0
  {
    if items == [] then 0.0 else Total(items[..|items| - 1]) + LineAmount(items[|items| - 1])
  }

  /** The total of a concatenation is the sum of the totals. */
  lemma {:induction false} TotalAppend(a: seq<PackageItem>, b: seq<PackageItem>)
    ensures Total(a + b) == Total(a) + Total(b)
  {
    if b == [] {
      assert a + b == a;
    } else {
      var front := b[..|b| - 1];
      assert (a + b)[..|a + b| - 1] == a + front;
      assert (a + b)[|a + b| - 1] == b[|b| - 1];
      TotalAppend(a, front);
    }
  }

  lemma TotalCons(x: PackageItem, s: seq<PackageItem>)
    ensures Total([x] + s) == LineAmount(x) + Total(s)
  {
    TotalAppend([x], s);
  }

  /** Splitting a quote by any test splits its total. */
  lemma {:induction false} TotalSplit(items: seq<PackageItem>, keep: PackageItem -> bool, drop: PackageItem -> bool)
    requires forall x :: drop(x) == !keep(x)
    ensures Total(items) == Total(Filter(items, keep)) + Total(Filter(items, drop))
  {
    if items != [] {
      var x, rest := items[0], items[1..];
      assert items == [x] + rest;
      var kept, dropped := Filter(rest, keep), Filter(rest, drop);
      TotalCons(x, rest);
      TotalSplit(rest, keep, drop);
      if keep(x) {
        assert Filter(items, keep) == [x] + kept;
        assert Filter(items, drop) == dropped;
        TotalCons(x, kept);
      } else {
        assert Filter(items, keep) == kept;
        assert Filter(items, drop) == [x] + dropped;
        TotalCons(x, dropped);
      }
    }
  }

  /** The order of the lines does not matter: any rearrangement has the same total. */
  lemma {:induction false} TotalPermutation(a: seq<PackageItem>, b: seq<PackageItem>)
    requires multiset(a) == multiset(b)
    ensures Total(a) == Total(b)
    decreases |a|
  {
    if a == [] {
      assert |b| == |multiset(b)| == 0;
    } else {
      var x := a[0];
      assert x in multiset(a);
      var j :| 0 <= j < |b| && b[j] == x;
      var before, after := b[..j], b[j + 1..];
      assert b == before + [x] + after;
      assert a == [x] + a[1..];
      assert multiset(b) == multiset(before) + multiset{x} + multiset(after);
      assert multiset(a) == multiset{x} + multiset(a[1..]);
      assert multiset(before + after) == multiset(b) - multiset{x};
      assert multiset(a[1..]) == multiset(a) - multiset{x};
      TotalPermutation(a[1..], before + after);
      TotalCons(x, a[1..]);
      TotalAppend(before + [x], after);
      TotalAppend(before, [x]);
      TotalAppend(before, after);
      assert [x][..0] == [];
    }
  }

  /** A NaN or zero price adds nothing; 1100 and 580 make 1680. */
  lemma TotalScenarios(a: PackageItem, b: PackageItem, c: PackageItem)
    requires a.finalPrice == Finite(1100.0) && b.finalPrice == Finite(580.0) && c.finalPrice == NaN
    ensures Total([a, b]) == 1680.0
    ensures Total([a, c, b]) == 1680.0
  {
    assert [a, c, b][..2] == [a, c];
    assert [a, c][..1] == [a];
    assert [a][..0] == [];
    assert Total([a, c]) == 1100.0;
  }

  // ---------------------------------------------------------------------------
  // Adding to and removing from the quote

  /** The draft a package item came from: the item without its id and custom fields. */
  function DraftOf(item: PackageItem): ServiceSale.SaleDraft {
    ServiceSale.SaleDraft(item.service, item.markupValue, item.markupType, item.finalPrice, item.internalNotes)
  }

  /** `{ ...item, id: `${item.service.id}-${Date.now()}` }`: the draft unchanged,
      a stamped id added, and the custom fields absent. */
  function WithId(draft: ServiceSale.SaleDraft, now: nat): (item: PackageItem)
    ensures DraftOf(item) == draft
    ensures item.id == StampedId(draft.service.id, now)
    ensures item.customTitle.None? && item.customDescription.None?
  {
    PackageItem(StampedId(draft.service.id, now), draft.service, draft.markupValue, draft.markupType,
      draft.finalPrice, draft.internalNotes, None, None)
  }

  /** Drafts of different services, or added at different instants, get different ids. */
  lemma WithIdDistinct(d1: ServiceSale.SaleDraft, t1: nat, d2: ServiceSale.SaleDraft, t2: nat)
    requires WithId(d1, t1).id == WithId(d2, t2).id
    ensures d1.service.id == d2.service.id && t1 == t2
  {
    StampedIdInjective(d1.service.id, t1, d2.service.id, t2);
  }

  function OtherId(id: string): PackageItem -> bool {
    (i: PackageItem) => i.id != id
  }

  function SameId(id: string): PackageItem -> bool {
    (i: PackageItem) => i.id == id
  }

  /** `prev.filter(i => i.id !== item.id)` */
  function RemoveById(items: seq<PackageItem>, id: string): (r: seq<PackageItem>)
    ensures |r| <= |items|
    ensures forall x :: x in r <==> x in items && x.id != id
  {
    Filter(items, OtherId(id))
  }

  /** Every item with another id keeps its number of occurrences; none with the id is left. */
  lemma RemoveByIdCounts(items: seq<PackageItem>, id: string, x: PackageItem)
    ensures multiset(RemoveById(items, id))[x] == if x.id != id then multiset(items)[x] else 0
  {
    FilterMultiset(items, OtherId(id), x);
  }

  /** Removing an id no item carries leaves the quote as it was. */
  lemma RemoveAbsentId(items: seq<PackageItem>, id: string)
    requires forall x :: x in items ==> x.id != id
    ensures RemoveById(items, id) == items
  {
    FilterKeepsAll(items, OtherId(id));
  }

  /** Removal works part by part, so the surviving items keep their relative order. */
  lemma RemoveByIdAppend(a: seq<PackageItem>, b: seq<PackageItem>, id: string)
    ensures RemoveById(a + b, id) == RemoveById(a, id) + RemoveById(b, id)
  {
    FilterAppend(a, b, OtherId(id));
  }

  /** Adding an item with a fresh id and then removing that id gives back the quote. */
  lemma AddThenRemove(items: seq<PackageItem>, x: PackageItem)
    requires forall y :: y in items ==> y.id != x.id
    ensures RemoveById(items + [x], x.id) == items
  {
    RemoveByIdAppend(items, [x], x.id);
    RemoveAbsentId(items, x.id);
    assert RemoveById([x], x.id) == [];
  }

  /** Removal takes off the total exactly what the removed items added. */
  lemma TotalAfterRemove(items: seq<PackageItem>, id: string)
    ensures Total(RemoveById(items, id)) == Total(items) - Total(Filter(items, SameId(id)))
  {
    TotalSplit(items, OtherId(id), SameId(id));
  }

  // ---------------------------------------------------------------------------
  // The category toggle

  function NotThis(cat: ServiceCategory): ServiceCategory -> bool {
    c => c != cat
  }

  /** toggleCategory's new list: a present category is filtered out wherever it
      occurs, an absent one goes to the end. */
  function Toggle(cats: seq<ServiceCategory>, cat: ServiceCategory): (r: seq<ServiceCategory>)
    ensures cat in r <==> cat !in cats
    ensures forall c :: c != cat ==> (c in r <==> c in cats)
    ensures cat !in cats ==> r == cats + [cat]
  {
    if cat in cats then Filter(cats, NotThis(cat)) else cats + [cat]
  }

  /** Toggling off a category removes it from where it stood; the others keep their order. */
  lemma ToggleOffKeepsOrder(before: seq<ServiceCategory>, cat: ServiceCategory, after: seq<ServiceCategory>)
    requires cat !in before && cat !in after
    ensures Toggle(before + [cat] + after, cat) == before + after
  {
    var keep, head := NotThis(cat), before + [cat];
    assert cat in head + after;
    FilterAppend(head, after, keep);
    FilterAppend(before, [cat], keep);
    FilterKeepsAll(before, keep);
    FilterKeepsAll(after, keep);
    assert Filter([cat], keep) == [];
    assert Filter(head, keep) == before;
  }

  /** Toggling an absent category twice restores the exact list. */
  lemma ToggleTwiceAbsent(cats: seq<ServiceCategory>, cat: ServiceCategory)
    requires cat !in cats
    ensures Toggle(Toggle(cats, cat), cat) == cats
  {
    FilterAppend(cats, [cat], NotThis(cat));
    FilterKeepsAll(cats, NotThis(cat));
    assert Filter([cat], NotThis(cat)) == [];
  }

  /** A list without duplicates stays without duplicates. */
  lemma TogglePreservesNoDuplicates(cats: seq<ServiceCategory>, cat: ServiceCategory)
    requires NoDuplicates(cats)
    ensures NoDuplicates(Toggle(cats, cat))
  {
    if cat in cats {
      FilterNoDuplicates(cats, NotThis(cat));
    } else {
      var r := cats + [cat];
      forall i, j | 0 <= i < j < |r| ensures r[i] != r[j] {
        if j == |cats| {
          assert r[i] == cats[i];
        }
      }
    }
  }

  // ---------------------------------------------------------------------------
  // Validation before a search

  /** The value of an `<input type="date">` that holds a date: YYYY-MM-DD. */
  predicate IsIsoDate(s: string) {
    |s| == 10 && s[4] == '-' && s[7] == '-' &&
    forall i :: 0 <= i < 10 && i != 4 && i != 7 ==> IsDigit(s[i])
  }

  /** Strict lexicographic order; on YYYY-MM-DD strings it is the calendar order. */
  predicate LexLess(a: string, b: string)
    decreases |a|
  {
    |a| > 0 && |b| > 0 && (a[0] < b[0] || (a[0] == b[0] && LexLess(a[1..], b[1..])))
  }

  lemma {:induction false} LexLessIrreflexive(a: string)
    ensures !LexLess(a, a)
  {
    if |a| > 0 {
      LexLessIrreflexive(a[1..]);
    }
  }

  lemma {:induction false} LexLessAsymmetric(a: string, b: string)
    ensures LexLess(a, b) ==> !LexLess(b, a)
    decreases |a|
  {
    if |a| > 0 && |b| > 0 && a[0] == b[0] {
      LexLessAsymmetric(a[1..], b[1..]);
    }
  }

  lemma {:induction false} LexLessTransitive(a: string, b: string, c: string)
    requires LexLess(a, b) && LexLess(b, c)
    ensures LexLess(a, c)
    decreases |a|
  {
    if a[0] == b[0] && b[0] == c[0] {
      LexLessTransitive(a[1..], b[1..], c[1..]);
    }
  }

  /** A shared prefix does not change the order. */
  lemma {:induction false} LexLessCommonPrefix(p: string, a: string, b: string)
    requires LexLess(a, b)
    ensures LexLess(p + a, p + b)
  {
    if p != [] {
      assert (p + a)[1..] == p[1..] + a && (p + b)[1..] == p[1..] + b;
      LexLessCommonPrefix(p[1..], a, b);
    } else {
      assert p + a == a && p + b == b;
    }
  }

  /** `new Date(a) < new Date(b)` on input values: an unparsable date is NaN and compares false. */
  predicate DateBefore(a: string, b: string): (before: bool)
    ensures before ==> a != "" && b != "" && a != b && !LexLess(b, a)
  {
    LexLessAsymmetric(a, b);
    LexLessIrreflexive(a);
    IsIsoDate(a) && IsIsoDate(b) && LexLess(a, b)
  }

  /** Why handleSearch stops before searching, if it does. */
  datatype Verdict = Accepted | ReturnBeforeDeparture | DestinationMissing

  /** handleSearch's two checks, the date order first, then the destination. */
  function Validate(p: SearchParams): (v: Verdict)
    ensures v == ReturnBeforeDeparture <==> DateBefore(p.endDate, p.startDate)
    ensures v == DestinationMissing <==> !DateBefore(p.endDate, p.startDate) && p.destination == ""
    ensures v == Accepted <==> !DateBefore(p.endDate, p.startDate) && p.destination != ""
  {
    if p.endDate != "" && p.startDate != "" && DateBefore(p.endDate, p.startDate) then ReturnBeforeDeparture
    else if p.destination == "" then DestinationMissing
    else Accepted
  }

  /** A return on the day of departure is accepted, as is a missing return date. */
  lemma SameDayOrOpenReturnAccepted(p: SearchParams)
    requires p.destination != ""
    requires p.endDate == p.startDate || p.endDate == ""
    ensures Validate(p) == Accepted
  {
    LexLessIrreflexive(p.startDate);
  }

  /** A return after the departure is accepted. */
  lemma LaterReturnAccepted(p: SearchParams)
    requires p.destination != "" && DateBefore(p.startDate, p.endDate)
    ensures Validate(p) == Accepted
  {
  }

  /** Neither the chosen categories (even none) nor the tier, origin or passengers matter. */
  lemma ValidateReadsOnlyDatesAndDestination(p: SearchParams, q: SearchParams)
    requires p.startDate == q.startDate && p.endDate == q.endDate && p.destination == q.destination
    ensures Validate(p) == Validate(q)
  {
  }

  /** The date check runs first: a reversed range is reported even without a destination. */
  lemma ReversedDatesReportedFirst(p: SearchParams)
    requires p.destination == "" && p.endDate == "2025-06-05" && p.startDate == "2025-06-10"
    ensures Validate(p) == ReturnBeforeDeparture
  {
    JuneDatesOrdered();
  }

  lemma JuneDatesOrdered()
    ensures DateBefore("2025-06-05", "2025-06-10")
  {
    var early, late := "2025-06-" + "05", "2025-06-" + "10";
    assert early == "2025-06" + "-" + "05" == "2025-06-05";
    assert late == "2025-06" + "-" + "10" == "2025-06-10";
    IsoDateShape("2025-06", "05");
    IsoDateShape("2025-06", "10");
    assert LexLess("05", "10");
    LexLessCommonPrefix("2025-06-", "05", "10");
  }

  /** A year and month, a dash and two day digits make an ISO date. */
  lemma IsoDateShape(month: string, day: string)
    requires |month| == 7 && month[4] == '-' && |day| == 2
    requires forall i :: 0 <= i < 7 && i != 4 ==> IsDigit(month[i])
    requires IsDigit(day[0]) && IsDigit(day[1])
    ensures IsIsoDate(month + "-" + day)
  {
    var s := month + "-" + day;
    forall i | 0 <= i < 10 && i != 4 && i != 7 ensures IsDigit(s[i]) {
      if i < 7 {
        assert s[i] == month[i];
      } else {
        assert s[i] == day[i - 8];
      }
    }
  }

  // ---------------------------------------------------------------------------
  // Folding result sections

  /** `collapsedCategories[cat]`: an absent key reads as undefined, which is falsy. */
  predicate IsCollapsed(m: map<string, bool>, k: string) {
    k in m && m[k]
  }

  /** `{ ...prev, [cat]: !prev[cat] }` */
  function CollapseToggled(m: map<string, bool>, k: string): (r: map<string, bool>)
    ensures k in r && (IsCollapsed(r, k) <==> !IsCollapsed(m, k))
    ensures forall j :: j != k ==> (j in r <==> j in m) && (j in r ==> r[j] == m[j])
  {
    m[k := !IsCollapsed(m, k)]
  }

  /** Two clicks on a header leave every section as it looked. */
  lemma CollapseToggledTwice(m: map<string, bool>, k: string, j: string)
    ensures IsCollapsed(CollapseToggled(CollapseToggled(m, k), k), j) == IsCollapsed(m, j)
  {
  }

  /** The collapse map after a search: every returned key, open. */
  function AllOpen(results: map<string, Json>): (r: map<string, bool>)
    ensures r.Keys == results.Keys
    ensures forall k :: !IsCollapsed(r, k)
  {
    map k | k in results :: false
  }

  // ---------------------------------------------------------------------------
  // The screen's state

  datatype Tab = Busca | Pacote

  /** Every state field of the screen at one moment. */
  datatype Snapshot = Snapshot(
    loading: bool,
    activeTab: Tab,
    results: map<string, Json>,
    currentPackage: seq<PackageItem>,
    selectedService: Option<ServiceOption>,
    collapsedCategories: map<string, bool>,
    params: SearchParams
  )

  class AppState {
    var loading: bool
    var activeTab: Tab
    var results: map<string, Json>
    var currentPackage: seq<PackageItem>
    var selectedService: Option<ServiceOption>
    var collapsedCategories: map<string, bool>
    var params: SearchParams

    ghost function State(): Snapshot
      reads this
    {
      Snapshot(loading, activeTab, results, currentPackage, selectedService, collapsedCategories, params)
    }

    /** The form never lists a category twice. */
    ghost predicate Valid()
      reads this
    {
      NoDuplicates(params.categories)
    }

    /** The first render; the default departure date is an input. */
    constructor (defaultStartDate: string)
      ensures Valid()
      ensures State() == Snapshot(false, Busca, map[], [], None, map[],
        SearchParams("", Some(""), defaultStartDate, "", 1, [Flight, Hotel], Some(Standard)))
    {
      loading := false;
      activeTab := Busca;
      results := map[];
      currentPackage := [];
      selectedService := None;
      collapsedCategories := map[];
      params := SearchParams("", Some(""), defaultStartDate, "", 1, [Flight, Hotel], Some(Standard));
    }

    /** toggleCategory */
    method ToggleCategory(cat: ServiceCategory)
      requires Valid()
      modifies this
      ensures Valid()
      ensures State() == old(State()).(params := old(params).(categories := Toggle(old(params.categories), cat)))
    {
      TogglePreservesNoDuplicates(params.categories, cat);
      params := params.(categories := Toggle(params.categories, cat));
    }

    method SetDestination(destination: string)
      modifies this
      ensures State() == old(State()).(params := old(params).(destination := destination))
    {
      params := params.(destination := destination);
    }

    method SetOrigin(origin: string)
      modifies this
      ensures State() == old(State()).(params := old(params).(origin := Some(origin)))
    {
      params := params.(origin := Some(origin));
    }

    method SetStartDate(date: string)
      modifies this
      ensures State() == old(State()).(params := old(params).(startDate := date))
    {
      params := params.(startDate := date);
    }

    method SetEndDate(date: string)
      modifies this
      ensures State() == old(State()).(params := old(params).(endDate := date))
    {
      params := params.(endDate := date);
    }

    method SetTravelCategory(tier: TravelCategory)
      modifies this
      ensures State() == old(State()).(params := old(params).(travelCategory := Some(tier)))
    {
      params := params.(travelCategory := Some(tier));
    }

    method SetActiveTab(tab: Tab)
      modifies this
      ensures State() == old(State()).(activeTab := tab)
    {
      activeTab := tab;
    }

    /** A service card's onSelect: the sale drawer opens on that service. */
    method SelectService(service: ServiceOption)
      modifies this
      ensures State() == old(State()).(selectedService := Some(service))
    {
      selectedService := Some(service);
    }

    /** The drawer's onClose. */
    method CloseDrawer()
      modifies this
      ensures State() == old(State()).(selectedService := None)
    {
      selectedService := None;
    }

    /** onAddToPackage: one item at the end, stamped with an id; the total grows by its price. */
    method AddToPackage(draft: ServiceSale.SaleDraft, now: nat)
      modifies this
      ensures State() == old(State()).(currentPackage := old(currentPackage) + [WithId(draft, now)])
      ensures Total(currentPackage) == old(Total(currentPackage)) + OrZero(draft.finalPrice)
    {
      TotalAppend(currentPackage, [WithId(draft, now)]);
      currentPackage := currentPackage + [WithId(draft, now)];
    }

    /** The ✕ on a quote line. */
    method RemoveFromPackage(id: string)
      modifies this
      ensures State() == old(State()).(currentPackage := RemoveById(old(currentPackage), id))
      ensures Total(currentPackage) == old(Total(currentPackage)) - old(Total(Filter(currentPackage, SameId(id))))
    {
      TotalAfterRemove(currentPackage, id);
      currentPackage := RemoveById(currentPackage, id);
    }

    /** A click on a result section's header. */
    method ToggleCollapsed(cat: string)
      modifies this
      ensures State() == old(State()).(collapsedCategories := CollapseToggled(old(collapsedCategories), cat))
    {
      collapsedCategories := CollapseToggled(collapsedCategories, cat);
    }

    /** The drawer's "add" button: handleAdd hands the pricing decision to
        onAddToPackage, then onClose closes the drawer. */
    method ConfirmSale(drawer: ServiceSale.ServiceSaleDrawer, now: nat)
      requires drawer.Valid() && selectedService == Some(drawer.service)
      modifies this
      ensures State() == old(State()).(
        currentPackage := old(currentPackage) + [PackageItem(StampedId(drawer.service.id, now), drawer.service,
          drawer.markupValue, drawer.markupType, Finite(drawer.finalPrice), drawer.internalNotes, None, None)],
        selectedService := None)
    {
      var draft := drawer.HandleAdd();
      AddToPackage(draft, now);
      CloseDrawer();
    }

    /** handleSearch up to the call: a rejected form changes nothing; an
        accepted one raises the loading flag and clears the results. */
    method StartSearch() returns (verdict: Verdict)
      modifies this
      ensures verdict == Validate(old(params))
      ensures verdict != Accepted ==> State() == old(State())
      ensures verdict == Accepted ==> State() == old(State()).(loading := true, results := map[])
    {
      verdict := Validate(params);
      if verdict == Accepted {
        loading := true;
        results := map[];
      }
    }

    /** handleSearch after the call: the try block on a reply, the catch on a
        rejection, and the finally in both cases. */
    method CompleteSearch(outcome: SearchOutcome)
      modifies this
      ensures outcome.Returned? ==> State() == old(State()).(loading := false, results := outcome.results,
        collapsedCategories := AllOpen(outcome.results), activeTab := Busca)
      ensures outcome.Threw? ==> State() == old(State()).(loading := false)
    {
      if outcome.Returned? {
        results := outcome.results;
        collapsedCategories := AllOpen(outcome.results);
        activeTab := Busca;
      }
      loading := false;
    }

    /** handleSearch as a whole, with the service's collaborator and JSON.parse as inputs. */
    method HandleSearch(clientCreated: bool, reply: Reply, parse: string -> ParseOutcome) returns (verdict: Verdict)
      modifies this
      ensures verdict == Validate(old(params))
      ensures verdict != Accepted ==> State() == old(State())
      ensures verdict == Accepted && clientCreated ==>
        var found := RepliedResults(reply, parse);
        State() == old(State()).(loading := false, results := found,
          collapsedCategories := AllOpen(found), activeTab := Busca)
      ensures verdict == Accepted && !clientCreated ==>
        State() == old(State()).(loading := false, results := map[])
    {
      verdict := StartSearch();
      if verdict == Accepted {
        var outcome := SearchTravelServices(clientCreated, reply, parse);
        CompleteSearch(outcome);
      }
    }
  }
}

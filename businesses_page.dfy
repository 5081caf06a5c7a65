/**
 * The business directory page: the loaded list is filtered by a
 * case-insensitive search on name or description and by category, then
 * sorted by reputation (highest first), by name, or not at all; each card
 * shows a colour and a quality word for the reputation.
 */
module BusinessesPage {
  import opened Wrappers
  import opened JsBuiltins
  import opened Sorting

  /** A business as the page receives it; optional fields may be undefined. */
  datatype Business = Business(
    id: Number,
    name: string,
    description: Option<string>,
    category: Option<string>,
    reputation: Option<int>)

  const AllCategories: string := "All Categories"

  /** `b.reputation || 0`: a missing reputation (or 0) counts as 0. */
  function Rep(b: Business): int {
    b.reputation.GetOr(0)
  }

  /** `b.id`, the field the pages filter on. */
  function BusinessId(b: Business): Number {
    b.id
  }

  /** `(results || []).filter((x) => x.id && !isNaN(x.id))`, as both pages
      apply it to what the API lists; `idOf` reads the record's id. */
  function WithUsableIds<T>(results: seq<T>, idOf: T -> Number): (r: seq<T>)
    ensures forall i :: 0 <= i < |r| ==> IsUsableId(idOf(r[i]))
    ensures multiset(r) <= multiset(results)
    ensures forall x :: x in results && IsUsableId(idOf(x)) ==> x in r
  {
    if results == [] then []
    else
      assert results == [results[0]] + results[1..];
      var rest := WithUsableIds(results[1..], idOf);
      if IsUsableId(idOf(results[0])) then [results[0]] + rest else rest
  }

  /** The filter keeps the records' order: it works on each part of a list
      on its own. */
  lemma {:induction false} WithUsableIdsAppend<T>(a: seq<T>, b: seq<T>, idOf: T -> Number)
    ensures WithUsableIds(a + b, idOf) == WithUsableIds(a, idOf) + WithUsableIds(b, idOf)
  {
    if a == [] {
      assert a + b == b;
    } else {
      assert (a + b)[0] == a[0] && (a + b)[1..] == a[1..] + b;
      WithUsableIdsAppend(a[1..], b, idOf);
    }
  }

  /** A unit list passes the filter exactly when its id is usable. */
  lemma WithUsableIdsSingleton<T>(x: T, idOf: T -> Number)
    ensures WithUsableIds([x], idOf) == if IsUsableId(idOf(x)) then [x] else []
  {
    assert [x][1..] == [];
  }

  /**
   * `matchesSearch`: the lower-cased name includes the lower-cased query, or
   * else the lower-cased description does. `None` is the TypeError thrown
   * when the name does not match and the description is undefined.
   */
  function MatchesSearch(b: Business, query: string): Option<bool> {
    var q := ToLowerCase(query);
    if Includes(ToLowerCase(b.name), q) then Some(true)
    else match b.description
      case None => None
      case Some(d) => Some(Includes(ToLowerCase(d), q))
  }

  /** `matchesCategory`. */
  predicate MatchesCategory(b: Business, selected: string) {
    selected == AllCategories || b.category == Some(selected)
  }

  /** The business passes both tests of the filter callback. */
  predicate Selected(b: Business, query: string, selected: string) {
    MatchesSearch(b, query) == Some(true) && MatchesCategory(b, selected)
  }

  /** The filter callback throws for no business of the list. */
  predicate FilterSucceeds(bs: seq<Business>, query: string) {
    forall i :: 0 <= i < |bs| ==> MatchesSearch(bs[i], query).Some?
  }

  /** `businesses.filter(...)`; `None` when a callback throws. */
  function FilterBusinesses(bs: seq<Business>, query: string, selected: string): (r: Option<seq<Business>>)
    ensures r.Some? <==> FilterSucceeds(bs, query)
    ensures r.Some? ==> forall i :: 0 <= i < |r.value| ==> Selected(r.value[i], query, selected)
    ensures r.Some? ==> multiset(r.value) <= multiset(bs)
    ensures r.Some? ==> forall b :: b in bs && Selected(b, query, selected) ==> b in r.value
  {
    if bs == [] then Some([])
    else
      assert bs == [bs[0]] + bs[1..];
      assert forall i :: 1 <= i < |bs| ==> bs[i] == bs[1..][i - 1];
      match MatchesSearch(bs[0], query)
      case None => None
      case Some(m) =>
        match FilterBusinesses(bs[1..], query, selected)
        case None => None
        case Some(rest) =>
          if m && MatchesCategory(bs[0], selected) then Some([bs[0]] + rest) else Some(rest)
  }

  /** `(a, b) => (b.reputation || 0) - (a.reputation || 0)` as "a may stay before b". */
  const ByReputation: (Business, Business) -> bool := (a: Business, b: Business) => Rep(b) - Rep(a) <= 0

  /** The comparator of the `.sort` call, as "a may stay before b". */
  function SortOrder(sortBy: string, localeCompare: (string, string) -> int): (Business, Business) -> bool {
    if sortBy == "reputation" then ByReputation
    else if sortBy == "name" then (a: Business, b: Business) => localeCompare(a.name, b.name) <= 0
    else (a: Business, b: Business) => true
  }

  /** `filteredBusinesses`: filter, then sort the fresh filtered array. */
  function FilteredBusinesses(
    bs: seq<Business>, query: string, selected: string, sortBy: string,
    localeCompare: (string, string) -> int): Option<seq<Business>>
  {
    match FilterBusinesses(bs, query, selected)
    case None => None
    case Some(f) => Some(SortBy(f, SortOrder(sortBy, localeCompare)))
  }

  lemma ReputationOrderIsConsistent()
    ensures TotalPreorder(ByReputation)
  {
  }

  /** What the page lists: exactly the businesses that pass the search and the
      category test, each as often as in the loaded list, in order of
      reputation when sorting by reputation, in the loaded order when the sort
      key is unknown, and in the comparator's order when sorting by name with a
      consistent comparator. */
  lemma {:induction false} FilteredBusinessesListing(
    bs: seq<Business>, query: string, selected: string, sortBy: string,
    localeCompare: (string, string) -> int)
    requires FilterSucceeds(bs, query)
    ensures var r := FilteredBusinesses(bs, query, selected, sortBy, localeCompare);
      && r.Some?
      && multiset(r.value) == multiset(FilterBusinesses(bs, query, selected).value)
      && (forall b :: b in r.value ==> Selected(b, query, selected))
      && (forall b :: b in bs && Selected(b, query, selected) ==> b in r.value)
      && (sortBy == "reputation" ==> forall i, j :: 0 <= i < j < |r.value| ==> Rep(r.value[i]) >= Rep(r.value[j]))
      && (sortBy != "reputation" && sortBy != "name" ==> r.value == FilterBusinesses(bs, query, selected).value)
      && (sortBy == "name" && TotalPreorder(SortOrder(sortBy, localeCompare)) ==>
            Sorted(r.value, SortOrder(sortBy, localeCompare)))
  {
    var f := FilterBusinesses(bs, query, selected).value;
    var le := SortOrder(sortBy, localeCompare);
    var r := SortBy(f, le);
    SortByPermutes(f, le);
    assert forall b :: b in r <==> b in multiset(f);
    if sortBy == "reputation" {
      ReputationOrderIsConsistent();
      SortBySorted(f, le);
      assert forall i, j :: 0 <= i < j < |r| ==> le(r[i], r[j]);
    } else if sortBy == "name" {
      if TotalPreorder(le) {
        SortBySorted(f, le);
      }
    } else {
      SortByAllEqual(f, le);
    }
  }

  /** `getReputationColor`. */
  function GetReputationColor(reputation: Option<int>): string {
    match reputation
    case None => "text-red-500"
    case Some(r) =>
      if r >= 80 then "text-green-500"
      else if r >= 50 then "text-yellow-500"
      else if r >= 0 then "text-orange-500"
      else "text-red-500"
  }

  /** `getReputationBadge`. */
  function GetReputationBadge(reputation: Option<int>): string {
    match reputation
    case None => "Poor"
    case Some(r) =>
      if r >= 80 then "Excellent"
      else if r >= 50 then "Good"
      else if r >= 0 then "Fair"
      else "Poor"
  }

  /** The colour that goes with each quality word. */
  function BadgeColor(badge: string): string {
    if badge == "Excellent" then "text-green-500"
    else if badge == "Good" then "text-yellow-500"
    else if badge == "Fair" then "text-orange-500"
    else "text-red-500"
  }

  /** The colour and the word use the same bands: 80 and up Excellent in
      green, 50 to 79 Good in yellow, 0 to 49 Fair in orange, below 0 Poor in
      red; an undefined reputation fails every comparison and shows Poor in red. */
  lemma ColorAndBadgeAgree(reputation: Option<int>)
    ensures GetReputationColor(reputation) == BadgeColor(GetReputationBadge(reputation))
    ensures GetReputationBadge(reputation) == "Excellent" <==> reputation.Some? && reputation.value >= 80
    ensures GetReputationBadge(reputation) == "Good" <==> reputation.Some? && 50 <= reputation.value <= 79
    ensures GetReputationBadge(reputation) == "Fair" <==> reputation.Some? && 0 <= reputation.value <= 49
    ensures GetReputationBadge(reputation) == "Poor" <==> reputation.None? || reputation.value < 0
  {
  }
}

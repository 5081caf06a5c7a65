/**
 * The home page's "popular" sections. With the API reachable, popular ads
 * are the first four listed ads with usable ids and popular businesses the
 * four best-reputed businesses with usable ids. When a request fails, the
 * page falls back to the mock data, sorting the shared mock arrays in place.
 */
module HomePage {
  import opened Wrappers
  import opened JsBuiltins
  import opened Sorting
  import opened BusinessesPage

  /** An ad as the page stores it. */
  datatype Ad = Ad(
    id: Number,
    title: string,
    description: Option<string>,
    shareCount: int,
    business: Option<int>,
    owner: Option<int>,
    status: string,
    createdAt: string)

  function Take<T>(s: seq<T>, n: nat): (r: seq<T>)
    ensures r == s[..if |s| < n then |s| else n]
  {
    if |s| < n then s else s[..n]
  }

  /** `a.id`, the field the page filters on. */
  function AdId(a: Ad): Number {
    a.id
  }

  /** API branch for ads: the server orders by share count; the page keeps the
      first four with usable ids, in the server's order. */
  function PopularAdsFromApi(results: seq<Ad>): (r: seq<Ad>)
    ensures var usable := WithUsableIds(results, AdId);
      && |r| == (if |usable| < 4 then |usable| else 4)
      && r <= usable
    ensures forall i :: 0 <= i < |r| ==> IsUsableId(r[i].id) && r[i] in results
  {
    var usable := WithUsableIds(results, AdId);
    var r := Take(usable, 4);
    assert forall i :: 0 <= i < |r| ==> r[i] in multiset(usable);
    r
  }

  /** API branch for businesses: usable ids, sorted by reputation, first four. */
  function PopularBusinessesFromApi(results: seq<Business>): seq<Business> {
    Take(SortBy(WithUsableIds(results, BusinessId), ByReputation), 4)
  }

  /** Best reputation first. */
  ghost predicate BestFirst(r: seq<Business>) {
    forall i, j :: 0 <= i < j < |r| ==> Rep(r[i]) >= Rep(r[j])
  }

  /** No business of `others` has a better reputation than one of `r`. */
  ghost predicate NoneBetter(r: seq<Business>, others: multiset<Business>) {
    forall x, y :: x in r && y in others ==> Rep(x) >= Rep(y)
  }

  /** The first `k` of a list sorted best reputation first are never worse
      than any of the others. */
  lemma {:induction false} SortedPrefixDominates(sorted: seq<Business>, k: nat)
    requires k <= |sorted| && Sorted(sorted, ByReputation)
    ensures BestFirst(sorted[..k])
    ensures NoneBetter(sorted[..k], multiset(sorted[k..]))
  {
    assert forall i, j :: 0 <= i < j < k ==> ByReputation(sorted[..k][i], sorted[..k][j]);
    forall x, y | x in sorted[..k] && y in multiset(sorted[k..]) ensures Rep(x) >= Rep(y) {
      var i :| 0 <= i < k && sorted[..k][i] == x;
      var j :| 0 <= j < |sorted[k..]| && sorted[k..][j] == y;
      assert ByReputation(sorted[i], sorted[k + j]);
    }
  }

  lemma {:induction false} PrefixRemainder<T>(s: seq<T>, k: nat)
    requires k <= |s|
    ensures multiset(s) - multiset(s[..k]) == multiset(s[k..])
    ensures multiset(s[..k]) <= multiset(s)
  {
    assert s == s[..k] + s[k..];
  }

  /** The first four of a list sorted by reputation are its best four. */
  lemma {:induction false} TopFourOfSorted(usable: seq<Business>)
    ensures var r := Take(SortBy(usable, ByReputation), 4);
      && |r| == (if |usable| < 4 then |usable| else 4)
      && BestFirst(r)
      && multiset(r) <= multiset(usable)
      && NoneBetter(r, multiset(usable) - multiset(r))
  {
    var sorted := SortBy(usable, ByReputation);
    var k := if |sorted| < 4 then |sorted| else 4;
    assert Take(sorted, 4) == sorted[..k];
    assert Sorted(sorted, ByReputation) by {
      ReputationOrderIsConsistent();
      SortBySorted(usable, ByReputation);
    }
    assert multiset(sorted) == multiset(usable) by {
      SortByPermutes(usable, ByReputation);
    }
    PrefixRemainder(sorted, k);
    SortedPrefixDominates(sorted, k);
  }

  /** The first four businesses (or all, if fewer), best reputation first,
      each taken from the fetched list with a usable id, and none left out
      that has a better reputation than one kept. */
  lemma {:induction false} PopularBusinessesAreTopFour(results: seq<Business>)
    ensures var r := PopularBusinessesFromApi(results);
      && |r| == (var n := |WithUsableIds(results, BusinessId)|; if n < 4 then n else 4)
      && BestFirst(r)
      && (forall b :: b in r ==> b in results && IsUsableId(b.id))
      && multiset(r) <= multiset(WithUsableIds(results, BusinessId))
      && NoneBetter(r, multiset(WithUsableIds(results, BusinessId)) - multiset(r))
  {
    var usable := WithUsableIds(results, BusinessId);
    var r := PopularBusinessesFromApi(results);
    TopFourOfSorted(usable);
    forall b | b in r ensures b in results && IsUsableId(b.id) {
      assert b in multiset(r);
      assert b in multiset(usable);
      var i :| 0 <= i < |usable| && usable[i] == b;
    }
  }

  /** The mock ad record, reduced to the fields the fallback reads. */
  datatype MockAd = MockAd(id: string, title: string, description: string, status: string, createdAt: string, views: int)

  /** The mock business record, reduced to the fields the fallback reads. */
  datatype MockBusiness = MockBusiness(id: string, name: string, description: string, category: string, reputation: int)

  /** `(a, b) => b.views - a.views` as "a may stay before b". */
  const ByViews: (MockAd, MockAd) -> bool := (a: MockAd, b: MockAd) => b.views - a.views <= 0

  /** `(a, b) => b.reputation - a.reputation` as "a may stay before b". */
  const ByMockReputation: (MockBusiness, MockBusiness) -> bool :=
    (a: MockBusiness, b: MockBusiness) => b.reputation - a.reputation <= 0

  /** The `.map` of the ads fallback. */
  function MockToAd(m: MockAd): Ad {
    Ad(ParseInt(m.id), m.title, Some(m.description), m.views, Some(1), Some(1), m.status, m.createdAt)
  }

  /** The `.map` of the businesses fallback (the owner and creation date it also sets are not modelled). */
  function MockToBusiness(m: MockBusiness): Business {
    Business(ParseInt(m.id), m.name, Some(m.description), Some(m.category), Some(m.reputation))
  }

  /** `s.map(f).filter((x) => !isNaN(x.id))`, which both fallbacks apply to
      the first four mock records; `idOf` reads the converted record's id. */
  function MapKeepingNumericIds<A, B>(s: seq<A>, f: A -> B, idOf: B -> Number): (r: seq<B>)
    ensures |r| <= |s|
    ensures forall i :: 0 <= i < |r| ==> idOf(r[i]).Num?
    ensures forall y :: y in r ==> exists x :: x in s && y == f(x)
    ensures forall x :: x in s && idOf(f(x)).Num? ==> f(x) in r
  {
    if s == [] then []
    else
      assert s == [s[0]] + s[1..];
      var y := f(s[0]);
      var rest := MapKeepingNumericIds(s[1..], f, idOf);
      assert forall z :: z in rest ==> exists x :: x in s && z == f(x) by {
        forall z | z in rest ensures exists x :: x in s && z == f(x) {
          var x :| x in s[1..] && z == f(x);
          assert x in s;
        }
      }
      if idOf(y).NaN? then rest else [y] + rest
  }

  /** The conversion keeps the records' order: it works on each part of a
      list on its own. */
  lemma {:induction false} MapKeepingNumericIdsAppend<A, B>(a: seq<A>, b: seq<A>, f: A -> B, idOf: B -> Number)
    ensures MapKeepingNumericIds(a + b, f, idOf) == MapKeepingNumericIds(a, f, idOf) + MapKeepingNumericIds(b, f, idOf)
  {
    if a == [] {
      assert a + b == b;
    } else {
      assert (a + b)[0] == a[0] && (a + b)[1..] == a[1..] + b;
      MapKeepingNumericIdsAppend(a[1..], b, f, idOf);
    }
  }

  /** A unit list keeps its converted record exactly when that id is a number. */
  lemma MapKeepingNumericIdsSingleton<A, B>(x: A, f: A -> B, idOf: B -> Number)
    ensures MapKeepingNumericIds([x], f, idOf) == if idOf(f(x)).Num? then [f(x)] else []
  {
    assert [x][1..] == [];
  }

  /** The ads fallback's `.map(...).filter(...)`. */
  function MockAdsToAds(s: seq<MockAd>): seq<Ad> {
    MapKeepingNumericIds(s, MockToAd, AdId)
  }

  /** The businesses fallback's `.map(...).filter(...)`. */
  function MockBusinessesToBusinesses(s: seq<MockBusiness>): seq<Business> {
    MapKeepingNumericIds(s, MockToBusiness, BusinessId)
  }

  /** Copies `s` into `a`, element by element. */
  method AssignAll<T>(a: array<T>, s: seq<T>)
    requires a.Length == |s|
    modifies a
    ensures a[..] == s
  {
    forall i | 0 <= i < a.Length {
      a[i] := s[i];
    }
  }

  /** Fallback for ads: `mockAds.sort(...)` reorders the shared array, then the
      first four become the popular ads. */
  method FallbackPopularAds(mockAds: array<MockAd>) returns (ads: seq<Ad>)
    modifies mockAds
    ensures mockAds[..] == SortBy(old(mockAds[..]), ByViews)
    ensures ads == MockAdsToAds(Take(mockAds[..], 4))
  {
    var sorted := SortBy(mockAds[..], ByViews);
    AssignAll(mockAds, sorted);
    ads := MockAdsToAds(Take(mockAds[..], 4));
  }

  /** Fallback for businesses, the same way with `mockBusinesses`. */
  method FallbackPopularBusinesses(mockBusinesses: array<MockBusiness>) returns (businesses: seq<Business>)
    modifies mockBusinesses
    ensures mockBusinesses[..] == SortBy(old(mockBusinesses[..]), ByMockReputation)
    ensures businesses == MockBusinessesToBusinesses(Take(mockBusinesses[..], 4))
  {
    var sorted := SortBy(mockBusinesses[..], ByMockReputation);
    AssignAll(mockBusinesses, sorted);
    businesses := MockBusinessesToBusinesses(Take(mockBusinesses[..], 4));
  }

  const FitnessAd := MockAd("1", FitnessTitle, FitnessDescription, "active", "2025-01-15", 1250)
  const FashionAd := MockAd("2", FashionTitle, FashionDescription, "active", "2025-01-18", 890)
  const LearningAd := MockAd("3", LearningTitle, LearningDescription, "active", "2025-01-20", 2100)
  const MealKitAd := MockAd("4", MealKitTitle, MealKitDescription, "active", "2025-01-22", 1450)
  const SecurityAd := MockAd("5", SecurityTitle, SecurityDescription, "active", "2025-01-25", 1780)
  const TravelAd := MockAd("6", TravelTitle, TravelDescription, "active", "2025-01-28", 1620)

  const FitnessTitle := "Premium Fitness App Launch Campaign"
  const FitnessDescription :=
    "Promote our new fitness tracking app with personalized workout plans and nutrition guidance. Looking for health and wellness advertisers."
  const FashionTitle := "Eco-Friendly Fashion Brand Awareness"
  const FashionDescription :=
    "Sustainable clothing line made from recycled materials. Seeking fashion and lifestyle influencers to spread awareness."
  const LearningTitle := "AI-Powered Learning Platform"
  const LearningDescription :=
    "Revolutionary education platform using AI to personalize learning experiences. Target audience: students and educators."
  const MealKitTitle := "Gourmet Meal Kit Delivery Service"
  const MealKitDescription :=
    "Chef-curated meal kits delivered to your door. Fresh ingredients, easy recipes. Perfect for food bloggers and lifestyle content creators."
  const SecurityTitle := "Smart Home Security System"
  const SecurityDescription :=
    "Next-gen home security with AI detection and mobile monitoring. Looking for tech reviewers and home improvement advertisers."
  const TravelTitle := "Travel Adventure Booking Platform"
  const TravelDescription :=
    "Discover and book unique travel experiences worldwide. Seeking travel bloggers and adventure content creators."

  /** The mock ads, in their initial order. */
  const MockAds: seq<MockAd> := [FitnessAd, FashionAd, LearningAd, MealKitAd, SecurityAd, TravelAd]

  /** The mock businesses, in their initial order. */
  const MockBusinesses: seq<MockBusiness> := [
    MockBusiness("b1", "FitTrack Pro",
      "Leading fitness technology company specializing in health tracking apps", "Health & Fitness", 87),
    MockBusiness("b2", "GreenThreads",
      "Sustainable fashion brand committed to eco-friendly clothing", "Fashion", 92),
    MockBusiness("b3", "LearnAI",
      "Revolutionary AI-powered education platform", "Education", 105),
    MockBusiness("b4", "ChefBox",
      "Premium meal kit delivery service with chef-curated recipes", "Food & Beverage", 23),
    MockBusiness("b5", "SecureHome AI",
      "Next-generation smart home security solutions", "Technology", -45),
    MockBusiness("b6", "WanderQuest",
      "Discover unique travel experiences worldwide", "Travel", -75)
  ]

  lemma {:induction false} NaNIdsDropped(s: seq<MockBusiness>)
    requires forall i :: 0 <= i < |s| ==> ParseInt(s[i].id) == NaN
    ensures MockBusinessesToBusinesses(s) == []
  {
    if s != [] {
      NaNIdsDropped(s[1..]);
    }
  }

  /** However a list whose ids are all NaN has been reordered, its sorted top
      four yield no business. */
  lemma {:induction false} NaNPoolYieldsNothing(s: seq<MockBusiness>, pool: seq<MockBusiness>)
    requires multiset(s) == multiset(pool)
    requires forall k :: 0 <= k < |pool| ==> ParseInt(pool[k].id) == NaN
    ensures MockBusinessesToBusinesses(Take(SortBy(s, ByMockReputation), 4)) == []
  {
    var sorted := SortBy(s, ByMockReputation);
    var top := Take(sorted, 4);
    SortByPermutes(s, ByMockReputation);
    forall i | 0 <= i < |top| ensures ParseInt(top[i].id) == NaN {
      assert top[i] == sorted[i];
      assert top[i] in multiset(pool);
      var k :| 0 <= k < |pool| && pool[k] == top[i];
    }
    NaNIdsDropped(top);
  }

  lemma MockBusinessIdsAreNaN()
    ensures forall k :: 0 <= k < |MockBusinesses| ==> ParseInt(MockBusinesses[k].id) == NaN
  {
    forall k | 0 <= k < |MockBusinesses| ensures ParseInt(MockBusinesses[k].id) == NaN {
      ParseIntLetterFirst(MockBusinesses[k].id);
    }
  }

  /** Every mock business id ("b1" to "b6") is NaN to `parseInt`, so however the
      shared array has been reordered, the fallback lists no popular business. */
  lemma FallbackBusinessesEmpty(s: seq<MockBusiness>)
    requires multiset(s) == multiset(MockBusinesses)
    ensures MockBusinessesToBusinesses(Take(SortBy(s, ByMockReputation), 4)) == []
  {
    MockBusinessIdsAreNaN();
    NaNPoolYieldsNothing(s, MockBusinesses);
  }

  lemma SortLastThree<T>(a4: T, a5: T, a6: T, le: (T, T) -> bool)
    requires le(a5, a6) && !le(a4, a5) && !le(a4, a6)
    ensures SortBy([a4, a5, a6], le) == [a5, a6, a4]
  {
    assert [a6] + [] == [a6] && [a5] + [a6] == [a5, a6] && [a4] + [a5, a6] == [a4, a5, a6];
    SortByCons(a6, [], le);
    assert SortBy([a6], le) == [a6];
    SortByCons(a5, [a6], le);
    InsertBefore(a5, a6, [], le);
    assert SortBy([a5, a6], le) == [a5, a6];
    SortByCons(a4, [a5, a6], le);
    assert [a5, a6] + [] == [a5, a6] && [a5, a6] + [a4] + [] == [a5, a6, a4];
    InsertAfterPrefix(a4, [a5, a6], [], le);
  }

  lemma SortLastFive<T>(a2: T, a3: T, a4: T, a5: T, a6: T, le: (T, T) -> bool)
    requires le(a5, a6) && !le(a4, a5) && !le(a4, a6) && le(a3, a5)
    requires !le(a2, a3) && !le(a2, a5) && !le(a2, a6) && !le(a2, a4)
    ensures SortBy([a2, a3, a4, a5, a6], le) == [a3, a5, a6, a4, a2]
  {
    SortLastThree(a4, a5, a6, le);
    assert [a3] + [a4, a5, a6] == [a3, a4, a5, a6];
    SortByCons(a3, [a4, a5, a6], le);
    assert [a5] + [a6, a4] == [a5, a6, a4] && [a3, a5] + [a6, a4] == [a3, a5, a6, a4];
    InsertBefore(a3, a5, [a6, a4], le);
    assert SortBy([a3, a4, a5, a6], le) == [a3, a5, a6, a4];
    assert [a2] + [a3, a4, a5, a6] == [a2, a3, a4, a5, a6];
    SortByCons(a2, [a3, a4, a5, a6], le);
    assert [a3, a5, a6, a4] + [] == [a3, a5, a6, a4] && [a3, a5, a6, a4] + [a2] + [] == [a3, a5, a6, a4, a2];
    InsertAfterPrefix(a2, [a3, a5, a6, a4], [], le);
  }

  /** Six values ordered like the mock ads' view counts sort as 3, 5, 6, 4, 1, 2. */
  lemma SortSix<T>(a1: T, a2: T, a3: T, a4: T, a5: T, a6: T, le: (T, T) -> bool)
    requires le(a5, a6) && !le(a4, a5) && !le(a4, a6) && le(a3, a5)
    requires !le(a2, a3) && !le(a2, a5) && !le(a2, a6) && !le(a2, a4)
    requires !le(a1, a3) && !le(a1, a5) && !le(a1, a6) && !le(a1, a4) && le(a1, a2)
    ensures SortBy([a1, a2, a3, a4, a5, a6], le) == [a3, a5, a6, a4, a1, a2]
  {
    SortLastFive(a2, a3, a4, a5, a6, le);
    assert [a1] + [a2, a3, a4, a5, a6] == [a1, a2, a3, a4, a5, a6];
    SortByCons(a1, [a2, a3, a4, a5, a6], le);
    assert [a3, a5, a6, a4] + [a2] == [a3, a5, a6, a4, a2];
    InsertAfterPrefix(a1, [a3, a5, a6, a4], [a2], le);
    assert [a3, a5, a6, a4] + [a1] + [a2] == [a3, a5, a6, a4, a1, a2];
  }

  /** The mock ads sorted by views: ids 3, 5, 6, 4, 1, 2. */
  lemma MockAdsByViews()
    ensures SortBy(MockAds, ByViews) == [LearningAd, SecurityAd, TravelAd, MealKitAd, FitnessAd, FashionAd]
  {
    SortSix(FitnessAd, FashionAd, LearningAd, MealKitAd, SecurityAd, TravelAd, ByViews);
  }

  /** Mock ads whose ids all parse are kept one for one. */
  lemma {:induction false} NumericIdsKept(s: seq<MockAd>)
    requires forall i :: 0 <= i < |s| ==> ParseInt(s[i].id).Num?
    ensures |MockAdsToAds(s)| == |s|
    ensures forall i :: 0 <= i < |s| ==> MockAdsToAds(s)[i] == MockToAd(s[i])
  {
    if s != [] {
      NumericIdsKept(s[1..]);
    }
  }

  lemma TopAdsMapped(top: seq<MockAd>)
    requires |top| == 4
    requires top[0].id == "3" && top[1].id == "5" && top[2].id == "6" && top[3].id == "4"
    ensures var ads := MockAdsToAds(top);
      |ads| == 4 &&
      ads[0].id == Num(3) && ads[1].id == Num(5) && ads[2].id == Num(6) && ads[3].id == Num(4) &&
      forall i :: 0 <= i < 4 ==> ads[i].shareCount == top[i].views
  {
    ParseIntOfDigit('3');
    ParseIntOfDigit('5');
    ParseIntOfDigit('6');
    ParseIntOfDigit('4');
    assert ParseInt(top[0].id) == Num(3) && ParseInt(top[1].id) == Num(5);
    assert ParseInt(top[2].id) == Num(6) && ParseInt(top[3].id) == Num(4);
    assert forall i :: 0 <= i < |top| ==> ParseInt(top[i].id).Num? by {
      forall i | 0 <= i < |top| ensures ParseInt(top[i].id).Num? {
        if i == 0 {
        } else if i == 1 {
        } else if i == 2 {
        } else {
          assert i == 3;
        }
      }
    }
    NumericIdsKept(top);
  }

  /** `b.views - a.views` is a consistent comparator. */
  lemma ByViewsTotal()
    ensures TotalPreorder(ByViews)
  {
  }

  /** No two mock ads have the same view count. */
  lemma MockAdViewsDistinct()
    ensures forall a, b :: a in multiset(MockAds) && b in multiset(MockAds) && ByViews(a, b) && ByViews(b, a) ==> a == b
  {
    forall a, b | a in multiset(MockAds) && b in multiset(MockAds) && ByViews(a, b) && ByViews(b, a)
      ensures a == b
    {
      assert a in MockAds && b in MockAds;
      MockAdOfViews(a);
      MockAdOfViews(b);
    }
  }

  /** Each mock ad is the one with its view count. */
  lemma MockAdOfViews(a: MockAd)
    requires a in MockAds
    ensures a == MockAdWithViews(a.views)
  {
  }

  function MockAdWithViews(v: int): MockAd {
    if v == 1250 then FitnessAd
    else if v == 890 then FashionAd
    else if v == 2100 then LearningAd
    else if v == 1450 then MealKitAd
    else if v == 1780 then SecurityAd
    else TravelAd
  }

  /** Sorting by views gives one list, whatever order the mock ads are in. */
  lemma MockAdsSortUniquely(s: seq<MockAd>)
    requires multiset(s) == multiset(MockAds)
    ensures SortBy(s, ByViews) == SortBy(MockAds, ByViews)
  {
    ByViewsTotal();
    SortBySorted(s, ByViews);
    SortBySorted(MockAds, ByViews);
    SortByPermutes(s, ByViews);
    SortByPermutes(MockAds, ByViews);
    MockAdViewsDistinct();
    SortedUnique(SortBy(MockAds, ByViews), SortBy(s, ByViews), ByViews);
  }

  /** On the first fallback, the popular ads are the mock ads with ids 3, 5,
      6 and 4, with their view counts as share counts. */
  lemma FirstFallbackAds()
    ensures var ads := MockAdsToAds(Take(SortBy(MockAds, ByViews), 4));
      |ads| == 4 &&
      ads[0].id == Num(3) && ads[1].id == Num(5) && ads[2].id == Num(6) && ads[3].id == Num(4) &&
      ads[0].shareCount == 2100 && ads[1].shareCount == 1780 &&
      ads[2].shareCount == 1620 && ads[3].shareCount == 1450
  {
    MockAdsByViews();
    var top := [LearningAd, SecurityAd, TravelAd, MealKitAd];
    assert Take(SortBy(MockAds, ByViews), 4) == top;
    TopAdsMapped(top);
  }

  /** However the shared mock array has been reordered by earlier fallbacks,
      the popular ads are the same four. */
  lemma FallbackAdsFromMockData(s: seq<MockAd>)
    requires multiset(s) == multiset(MockAds)
    ensures var ads := MockAdsToAds(Take(SortBy(s, ByViews), 4));
      |ads| == 4 &&
      ads[0].id == Num(3) && ads[1].id == Num(5) && ads[2].id == Num(6) && ads[3].id == Num(4) &&
      ads[0].shareCount == 2100 && ads[1].shareCount == 1780 &&
      ads[2].shareCount == 1620 && ads[3].shareCount == 1450
  {
    MockAdsSortUniquely(s);
    FirstFallbackAds();
  }
}

/**
 * How a business's cached counters are rebuilt from the interaction log:
 * each counter is a full rescan counting the events whose ad belongs to the
 * business. Clicks and views are attributed through their ad, searches
 * through the ad the searcher clicked; a search with no clicked ad counts
 * for nobody.
 */
module Aggregation {
  import opened Wrappers

  /** The interaction rows the counters are built from. */
  datatype Event =
    | AdClick(ad: int)
    | AdView(ad: int)
    | SearchQuery(clickedAd: Option<int>)

  datatype Counter = Clicks | Views | Searches

  /** `ad__business=business`: the ad exists and belongs to the business. */
  predicate OwnedBy(adOwner: map<int, int>, ad: int, business: int) {
    ad in adOwner && adOwner[ad] == business
  }

  /** The event is one of those the counter's query selects. */
  predicate Attributed(e: Event, counter: Counter, adOwner: map<int, int>, business: int) {
    match counter
    case Clicks => e.AdClick? && OwnedBy(adOwner, e.ad, business)
    case Views => e.AdView? && OwnedBy(adOwner, e.ad, business)
    case Searches => e.SearchQuery? && e.clickedAd.Some? && OwnedBy(adOwner, e.clickedAd.value, business)
  }

  /** The ad an event is about, if any. */
  function AdOf(e: Event): Option<int> {
    match e
    case AdClick(ad) => Some(ad)
    case AdView(ad) => Some(ad)
    case SearchQuery(clicked) => clicked
  }

  /** `.filter(...).count()` over the log. */
  function Count(log: seq<Event>, counter: Counter, adOwner: map<int, int>, business: int): (n: nat)
    ensures n <= |log|
  {
    if log == [] then 0
    else Count(log[..|log| - 1], counter, adOwner, business)
         + (if Attributed(log[|log| - 1], counter, adOwner, business) then 1 else 0)
  }

  /** The positions of the log the counter's query selects. */
  ghost function Selected(log: seq<Event>, counter: Counter, adOwner: map<int, int>, business: int): set<int> {
    set i | 0 <= i < |log| && Attributed(log[i], counter, adOwner, business)
  }

  /** `Count` is the number of selected events. */
  lemma {:induction false} CountIsSelectedEvents(log: seq<Event>, counter: Counter, adOwner: map<int, int>, business: int)
    ensures Count(log, counter, adOwner, business) == |Selected(log, counter, adOwner, business)|
  {
    if log != [] {
      var init := log[..|log| - 1];
      CountIsSelectedEvents(init, counter, adOwner, business);
      var before := Selected(init, counter, adOwner, business);
      var after := Selected(log, counter, adOwner, business);
      if Attributed(log[|log| - 1], counter, adOwner, business) {
        assert after == before + {|log| - 1};
      } else {
        assert after == before;
      }
    }
  }

  lemma CountAppend(log: seq<Event>, e: Event, counter: Counter, adOwner: map<int, int>, business: int)
    ensures Count(log + [e], counter, adOwner, business)
      == Count(log, counter, adOwner, business) + (if Attributed(e, counter, adOwner, business) then 1 else 0)
  {
    assert (log + [e])[..|log|] == log;
  }

  /** Counting a log in two parts. */
  lemma {:induction false} CountConcat(log: seq<Event>, more: seq<Event>, counter: Counter, adOwner: map<int, int>, business: int)
    ensures Count(log + more, counter, adOwner, business)
      == Count(log, counter, adOwner, business) + Count(more, counter, adOwner, business)
    decreases |more|
  {
    if more == [] {
      assert log + more == log;
    } else {
      var init := more[..|more| - 1];
      var last := more[|more| - 1];
      CountConcat(log, init, counter, adOwner, business);
      assert log + more == (log + init) + [last];
      CountAppend(log + init, last, counter, adOwner, business);
    }
  }

  /** A log none of whose events the query selects counts zero. */
  lemma {:induction false} CountNone(log: seq<Event>, counter: Counter, adOwner: map<int, int>, business: int)
    requires forall i :: 0 <= i < |log| ==> !Attributed(log[i], counter, adOwner, business)
    ensures Count(log, counter, adOwner, business) == 0
  {
    if log != [] {
      CountNone(log[..|log| - 1], counter, adOwner, business);
    }
  }

  /** The counters the recount writes. */
  datatype Counters = Counters(clicks: nat, views: nat, searches: nat)

  /** The recount of one business from the whole log. */
  function Aggregate(log: seq<Event>, adOwner: map<int, int>, business: int): (c: Counters)
    ensures c.clicks <= |log| && c.views <= |log| && c.searches <= |log|
  {
    Counters(Count(log, Clicks, adOwner, business), Count(log, Views, adOwner, business),
             Count(log, Searches, adOwner, business))
  }

  /** Each counter is the number of events of its kind on the business's ads. */
  lemma AggregateCountsEvents(log: seq<Event>, adOwner: map<int, int>, business: int)
    ensures Aggregate(log, adOwner, business).clicks
      == |set i | 0 <= i < |log| && log[i].AdClick? && OwnedBy(adOwner, log[i].ad, business)|
    ensures Aggregate(log, adOwner, business).views
      == |set i | 0 <= i < |log| && log[i].AdView? && OwnedBy(adOwner, log[i].ad, business)|
    ensures Aggregate(log, adOwner, business).searches
      == |set i | 0 <= i < |log| && log[i].SearchQuery? && log[i].clickedAd.Some?
                 && OwnedBy(adOwner, log[i].clickedAd.value, business)|
  {
    CountIsSelectedEvents(log, Clicks, adOwner, business);
    CountIsSelectedEvents(log, Views, adOwner, business);
    CountIsSelectedEvents(log, Searches, adOwner, business);
    assert Selected(log, Clicks, adOwner, business)
      == set i | 0 <= i < |log| && log[i].AdClick? && OwnedBy(adOwner, log[i].ad, business);
    assert Selected(log, Views, adOwner, business)
      == set i | 0 <= i < |log| && log[i].AdView? && OwnedBy(adOwner, log[i].ad, business);
    assert Selected(log, Searches, adOwner, business)
      == set i | 0 <= i < |log| && log[i].SearchQuery? && log[i].clickedAd.Some?
                 && OwnedBy(adOwner, log[i].clickedAd.value, business);
  }

  /** Events about ads of other businesses, and searches with no clicked ad,
      leave the business's counters as they were. */
  lemma ForeignEventsIgnored(log: seq<Event>, more: seq<Event>, adOwner: map<int, int>, business: int)
    requires forall i :: 0 <= i < |more| ==> AdOf(more[i]).None? || !OwnedBy(adOwner, AdOf(more[i]).value, business)
    ensures Aggregate(log + more, adOwner, business) == Aggregate(log, adOwner, business)
  {
    CountNone(more, Clicks, adOwner, business);
    CountNone(more, Views, adOwner, business);
    CountNone(more, Searches, adOwner, business);
    CountConcat(log, more, Clicks, adOwner, business);
    CountConcat(log, more, Views, adOwner, business);
    CountConcat(log, more, Searches, adOwner, business);
  }

  /** One more click on one of the business's ads raises the click count by
      exactly one; a view or an attributed search raises its own counter. */
  lemma OwnEventAddsOne(log: seq<Event>, e: Event, adOwner: map<int, int>, business: int)
    requires AdOf(e).Some? && OwnedBy(adOwner, AdOf(e).value, business)
    ensures var before, after := Aggregate(log, adOwner, business), Aggregate(log + [e], adOwner, business);
      match e
      case AdClick(_) => after == before.(clicks := before.clicks + 1)
      case AdView(_) => after == before.(views := before.views + 1)
      case SearchQuery(_) => after == before.(searches := before.searches + 1)
  {
    CountAppend(log, e, Clicks, adOwner, business);
    CountAppend(log, e, Views, adOwner, business);
    CountAppend(log, e, Searches, adOwner, business);
  }
}

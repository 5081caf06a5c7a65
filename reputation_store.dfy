/**
 * The reputation service: one cached `Reputation` row per business, kept in
 * a table whose business column has no uniqueness constraint, so that "one
 * row per business" holds only because every writer goes through
 * get-or-create. Recomputing a row rebuilds its click, view and search
 * counters from the whole event log and scores them with a formula that is
 * a parameter of the model.
 */
module ReputationStore {
  import opened Wrappers
  import opened Aggregation

  /** A row of the reputation table, with the fields the serializer reads. */
  datatype Reputation = Reputation(
    id: nat,
    business: int,
    shareCount: int,
    averageRating: real,
    reviewCount: int,
    clickCount: nat,
    viewCount: nat,
    searchCount: nat,
    overallScore: int,
    lastUpdated: Option<string>)

  /** What the score formula may look at. */
  datatype Measures = Measures(
    shareCount: int, averageRating: real, reviewCount: int,
    clickCount: nat, viewCount: nat, searchCount: nat)

  function MeasuresOf(r: Reputation): Measures {
    Measures(r.shareCount, r.averageRating, r.reviewCount, r.clickCount, r.viewCount, r.searchCount)
  }

  /** The `overall_score` default of the views. */
  const DefaultScore: int := 50
  /** The `overall_score` default of the sample-data script (`0.0` into an integer column). */
  const SampleScore: int := 0

  /** The row `get_or_create` inserts: every counter 0, average 0.0. */
  function NewRow(id: nat, business: int, initialScore: int): (r: Reputation)
    ensures r.id == id && r.business == business && r.overallScore == initialScore
    ensures r.shareCount == 0 && r.averageRating == 0.0 && r.reviewCount == 0
    ensures r.clickCount == 0 && r.viewCount == 0 && r.searchCount == 0
  {
    Reputation(id, business, 0, 0.0, 0, 0, 0, 0, initialScore, None)
  }

  /**
   * `update_from_business`, taken as the recount the test script performs:
   * the three counters are overwritten from the log and the score is
   * recomputed from the row's measures; everything else is kept.
   */
  function Recompute(row: Reputation, log: seq<Event>, adOwner: map<int, int>, scoreOf: Measures -> int): Reputation {
    var c := Aggregate(log, adOwner, row.business);
    var counted := row.(clickCount := c.clicks, viewCount := c.views, searchCount := c.searches);
    counted.(overallScore := scoreOf(MeasuresOf(counted)))
  }

  /** After a recompute the counters are the business's event counts, the
      score is the formula applied to the row, and nothing else changed. */
  lemma RecomputeCounts(row: Reputation, log: seq<Event>, adOwner: map<int, int>, scoreOf: Measures -> int)
    ensures var r := Recompute(row, log, adOwner, scoreOf);
      && r.clickCount == Count(log, Clicks, adOwner, row.business)
      && r.viewCount == Count(log, Views, adOwner, row.business)
      && r.searchCount == Count(log, Searches, adOwner, row.business)
      && r.overallScore == scoreOf(MeasuresOf(r))
      && r.(clickCount := row.clickCount, viewCount := row.viewCount, searchCount := row.searchCount,
            overallScore := row.overallScore) == row
  {
  }

  /** The stale counters play no part: two rows that differ only in counters
      and score recompute to the same row. */
  lemma RecomputeOverwrites(a: Reputation, b: Reputation, log: seq<Event>, adOwner: map<int, int>, scoreOf: Measures -> int)
    requires a.(clickCount := 0, viewCount := 0, searchCount := 0, overallScore := 0)
          == b.(clickCount := 0, viewCount := 0, searchCount := 0, overallScore := 0)
    ensures Recompute(a, log, adOwner, scoreOf) == Recompute(b, log, adOwner, scoreOf)
  {
  }

  /** Recomputing twice with no new events gives the same row. */
  lemma RecomputeIdempotent(row: Reputation, log: seq<Event>, adOwner: map<int, int>, scoreOf: Measures -> int)
    ensures var r := Recompute(row, log, adOwner, scoreOf);
      Recompute(r, log, adOwner, scoreOf) == r
  {
  }

  /** The first row of the table for the business, as `get` finds it. */
  function RowIndex(rows: seq<Reputation>, business: int): (r: Option<nat>)
    ensures r.Some? ==> r.value < |rows| && rows[r.value].business == business
    ensures r.Some? ==> forall i :: 0 <= i < r.value ==> rows[i].business != business
    ensures r.None? ==> forall i :: 0 <= i < |rows| ==> rows[i].business != business
  {
    if rows == [] then None
    else if rows[0].business == business then Some(0)
    else match RowIndex(rows[1..], business)
      case None => None
      case Some(i) => Some(i + 1)
  }

  predicate OneRowPerBusiness(rows: seq<Reputation>) {
    forall i, j :: 0 <= i < j < |rows| ==> rows[i].business != rows[j].business
  }

  /** The rows' ids are distinct and below the next id to hand out. */
  predicate IdsBelow(rows: seq<Reputation>, nextId: nat) {
    && (forall i :: 0 <= i < |rows| ==> rows[i].id < nextId)
    && (forall i, j :: 0 <= i < j < |rows| ==> rows[i].id != rows[j].id)
  }

  predicate WellFormed(rows: seq<Reputation>, nextId: nat) {
    OneRowPerBusiness(rows) && IdsBelow(rows, nextId)
  }

  /** The rows of the business. */
  function RowsOf(rows: seq<Reputation>, business: int): set<nat> {
    set i: nat | i < |rows| && rows[i].business == business
  }

  /** With one row per business, the row `get` finds is the business's only row. */
  lemma OnlyRowOf(rows: seq<Reputation>, business: int)
    requires OneRowPerBusiness(rows)
    ensures RowIndex(rows, business).Some? ==> RowsOf(rows, business) == {RowIndex(rows, business).value}
    ensures RowIndex(rows, business).None? ==> RowsOf(rows, business) == {}
  {
  }

  /** The outcome of `get_or_create`: the new table, the row, and whether it was inserted. */
  datatype Lookup = Lookup(rows: seq<Reputation>, nextId: nat, index: nat, created: bool)

  /** `Reputation.objects.get_or_create(business=..., defaults=...)`. */
  function GetOrCreate(rows: seq<Reputation>, nextId: nat, business: int, initialScore: int): (l: Lookup)
    ensures l.index < |l.rows| && l.rows[l.index].business == business
    ensures l.created <==> RowIndex(rows, business).None?
  {
    match RowIndex(rows, business)
    case Some(i) => Lookup(rows, nextId, i, false)
    case None => Lookup(rows + [NewRow(nextId, business, initialScore)], nextId + 1, |rows|, true)
  }

  /** Get-or-create keeps one row per business and fresh ids; it returns the
      business's row, inserts a default row exactly when there was none, and
      leaves every other business's row where it was. */
  lemma GetOrCreateWellFormed(rows: seq<Reputation>, nextId: nat, business: int, initialScore: int)
    requires WellFormed(rows, nextId)
    ensures var l := GetOrCreate(rows, nextId, business, initialScore);
      && WellFormed(l.rows, l.nextId)
      && RowIndex(l.rows, business) == Some(l.index)
      && (l.created ==> l.rows == rows + [NewRow(nextId, business, initialScore)] && l.nextId == nextId + 1)
      && (!l.created ==> l.rows == rows && l.nextId == nextId)
      && (forall other :: other != business ==> RowIndex(l.rows, other) == RowIndex(rows, other))
  {
    var l := GetOrCreate(rows, nextId, business, initialScore);
    if l.created {
      forall other | other != business
        ensures RowIndex(l.rows, other) == RowIndex(rows, other)
      {
        RowIndexAppend(rows, NewRow(nextId, business, initialScore), other);
      }
      RowIndexAppend(rows, NewRow(nextId, business, initialScore), business);
    }
  }

  lemma {:induction false} RowIndexAppend(rows: seq<Reputation>, row: Reputation, business: int)
    ensures RowIndex(rows + [row], business) ==
      if RowIndex(rows, business).Some? then RowIndex(rows, business)
      else if row.business == business then Some(|rows|) else None
  {
    if rows != [] {
      assert (rows + [row])[1..] == rows[1..] + [row];
      RowIndexAppend(rows[1..], row, business);
    }
  }

  /** Repeating get-or-create for the same business finds the row the first
      call made or found, and inserts nothing. */
  lemma GetOrCreateRepeated(rows: seq<Reputation>, nextId: nat, business: int, firstScore: int, secondScore: int)
    requires WellFormed(rows, nextId)
    ensures var first := GetOrCreate(rows, nextId, business, firstScore);
      var second := GetOrCreate(first.rows, first.nextId, business, secondScore);
      && !second.created
      && second.rows == first.rows && second.index == first.index
      && RowsOf(second.rows, business) == {second.index}
  {
    GetOrCreateWellFormed(rows, nextId, business, firstScore);
    var first := GetOrCreate(rows, nextId, business, firstScore);
    OnlyRowOf(first.rows, business);
  }

  /** `reputation.update_from_business(business)` on the row at `index`. */
  function RecomputeAt(rows: seq<Reputation>, index: nat, log: seq<Event>, adOwner: map<int, int>, scoreOf: Measures -> int): (r: seq<Reputation>)
    requires index < |rows|
    ensures |r| == |rows|
  {
    rows[index := Recompute(rows[index], log, adOwner, scoreOf)]
  }

  /** `RowIndex` looks only at the business column. */
  lemma {:induction false} RowIndexByBusiness(a: seq<Reputation>, b: seq<Reputation>, business: int)
    requires |a| == |b| && forall i :: 0 <= i < |a| ==> a[i].business == b[i].business
    ensures RowIndex(a, business) == RowIndex(b, business)
  {
    if a != [] {
      RowIndexByBusiness(a[1..], b[1..], business);
    }
  }

  /** Recomputing a row changes no business column and no id. */
  lemma RecomputeAtWellFormed(rows: seq<Reputation>, nextId: nat, index: nat, log: seq<Event>, adOwner: map<int, int>, scoreOf: Measures -> int)
    requires WellFormed(rows, nextId) && index < |rows|
    ensures var r := RecomputeAt(rows, index, log, adOwner, scoreOf);
      && WellFormed(r, nextId)
      && (forall b :: RowIndex(r, b) == RowIndex(rows, b))
  {
    var r := RecomputeAt(rows, index, log, adOwner, scoreOf);
    assert forall i :: 0 <= i < |r| ==> r[i].business == rows[i].business && r[i].id == rows[i].id;
    forall b ensures RowIndex(r, b) == RowIndex(rows, b) {
      RowIndexByBusiness(r, rows, b);
    }
  }

  /** The JSON object of `ReputationSerializer.serialize`. */
  datatype Serialized = Serialized(
    id: nat,
    businessId: int,
    businessName: string,
    shareCount: int,
    averageRating: real,
    reviewCount: int,
    clickCount: nat,
    viewCount: nat,
    searchCount: nat,
    overallScore: int,
    lastUpdated: Option<string>)

  function Serialize(row: Reputation, businessName: string): Serialized {
    Serialized(row.id, row.business, businessName, row.shareCount, row.averageRating, row.reviewCount,
               row.clickCount, row.viewCount, row.searchCount, row.overallScore, row.lastUpdated)
  }

  /** The serialized object carries every field of the row. */
  lemma SerializeKeepsEveryField(a: Reputation, b: Reputation, name: string)
    ensures Serialize(a, name) == Serialize(b, name) <==> a == b
    ensures Serialize(a, name).businessName == name
  {
  }

  /** Row `i` of `rows` was refreshed by a bulk update that began with the
      table `before`: it is the recompute of the row it had then, or of a
      default row the update inserted. */
  predicate Refreshed(rows: seq<Reputation>, before: seq<Reputation>, i: nat, log: seq<Event>, adOwner: map<int, int>, scoreOf: Measures -> int)
    requires i < |rows|
  {
    if i < |before| then rows[i] == Recompute(before[i], log, adOwner, scoreOf)
    else rows[i] == Recompute(NewRow(rows[i].id, rows[i].business, DefaultScore), log, adOwner, scoreOf)
  }

  /** Get-or-create followed by a recompute of the row it returns. */
  function Refresh(rows: seq<Reputation>, nextId: nat, business: int, log: seq<Event>, adOwner: map<int, int>, scoreOf: Measures -> int): Lookup {
    var l := GetOrCreate(rows, nextId, business, DefaultScore);
    l.(rows := RecomputeAt(l.rows, l.index, log, adOwner, scoreOf))
  }

  /** What a bulk update that began with the table `start` has done once the
      businesses in `done` are refreshed. */
  predicate BulkProgress(rows: seq<Reputation>, start: seq<Reputation>, done: set<int>,
                         log: seq<Event>, adOwner: map<int, int>, scoreOf: Measures -> int) {
    && |start| <= |rows|
    && (forall i :: 0 <= i < |start| ==> rows[i].business == start[i].business)
    && (forall i :: 0 <= i < |rows| && rows[i].business !in done ==> i < |start| && rows[i] == start[i])
    && (forall i :: 0 <= i < |rows| && rows[i].business in done ==> Refreshed(rows, start, i, log, adOwner, scoreOf))
    && (forall b :: b in done ==> RowIndex(rows, b).Some?)
  }

  /** Refreshing one more business keeps the table well formed and extends the progress. */
  lemma RefreshProgress(start: seq<Reputation>, rows: seq<Reputation>, nextId: nat, business: int, done: set<int>,
                        log: seq<Event>, adOwner: map<int, int>, scoreOf: Measures -> int)
    requires WellFormed(rows, nextId) && BulkProgress(rows, start, done, log, adOwner, scoreOf)
    requires business !in done
    ensures var l := Refresh(rows, nextId, business, log, adOwner, scoreOf);
      WellFormed(l.rows, l.nextId) && BulkProgress(l.rows, start, done + {business}, log, adOwner, scoreOf)
  {
    var l := GetOrCreate(rows, nextId, business, DefaultScore);
    GetOrCreateWellFormed(rows, nextId, business, DefaultScore);
    RecomputeAtWellFormed(l.rows, l.nextId, l.index, log, adOwner, scoreOf);
    RefreshKeepsOthers(start, rows, nextId, business, done, log, adOwner, scoreOf);
    RefreshRecomputes(start, rows, nextId, business, done, log, adOwner, scoreOf);
    RefreshFinds(rows, nextId, business, done, log, adOwner, scoreOf);
  }

  /** The rows of businesses not yet refreshed are untouched. */
  lemma RefreshKeepsOthers(start: seq<Reputation>, rows: seq<Reputation>, nextId: nat, business: int, done: set<int>,
                           log: seq<Event>, adOwner: map<int, int>, scoreOf: Measures -> int)
    requires WellFormed(rows, nextId) && BulkProgress(rows, start, done, log, adOwner, scoreOf)
    ensures var r := Refresh(rows, nextId, business, log, adOwner, scoreOf).rows;
      && |start| <= |r|
      && (forall i :: 0 <= i < |start| ==> r[i].business == start[i].business)
      && (forall i :: 0 <= i < |r| && r[i].business !in done + {business} ==> i < |start| && r[i] == start[i])
  {
    var l := GetOrCreate(rows, nextId, business, DefaultScore);
    var r := RecomputeAt(l.rows, l.index, log, adOwner, scoreOf);
    assert forall i :: 0 <= i < |r| && i != l.index ==> r[i] == l.rows[i];
    assert forall i :: 0 <= i < |rows| ==> l.rows[i] == rows[i];
  }

  /** The refreshed rows are recomputes of their starting rows or of default rows. */
  lemma RefreshRecomputes(start: seq<Reputation>, rows: seq<Reputation>, nextId: nat, business: int, done: set<int>,
                          log: seq<Event>, adOwner: map<int, int>, scoreOf: Measures -> int)
    requires WellFormed(rows, nextId) && BulkProgress(rows, start, done, log, adOwner, scoreOf)
    requires business !in done
    ensures var r := Refresh(rows, nextId, business, log, adOwner, scoreOf).rows;
      forall i :: 0 <= i < |r| && r[i].business in done + {business} ==> Refreshed(r, start, i, log, adOwner, scoreOf)
  {
    var l := GetOrCreate(rows, nextId, business, DefaultScore);
    GetOrCreateWellFormed(rows, nextId, business, DefaultScore);
    var r := RecomputeAt(l.rows, l.index, log, adOwner, scoreOf);
    if !l.created {
      assert l.index < |start| && rows[l.index] == start[l.index];
    }
    forall i | 0 <= i < |r| && r[i].business in done + {business}
      ensures Refreshed(r, start, i, log, adOwner, scoreOf)
    {
      if i != l.index {
        assert r[i] == rows[i];
      }
    }
  }

  /** Every refreshed business has a row. */
  lemma RefreshFinds(rows: seq<Reputation>, nextId: nat, business: int, done: set<int>,
                     log: seq<Event>, adOwner: map<int, int>, scoreOf: Measures -> int)
    requires WellFormed(rows, nextId)
    requires forall b :: b in done ==> RowIndex(rows, b).Some?
    ensures var r := Refresh(rows, nextId, business, log, adOwner, scoreOf).rows;
      forall b :: b in done + {business} ==> RowIndex(r, b).Some?
  {
    var l := GetOrCreate(rows, nextId, business, DefaultScore);
    GetOrCreateWellFormed(rows, nextId, business, DefaultScore);
    RecomputeAtWellFormed(l.rows, l.nextId, l.index, log, adOwner, scoreOf);
  }

  lemma NonEmptyHasElement(s: set<int>)
    requires s != {}
    ensures exists x :: x in s
  {
    if forall x :: x !in s {
      assert false;
    }
  }

  datatype BusinessInfo = BusinessInfo(name: string, owner: int)

  /** `request.user` once `JWTAuthentication` has run: `AnonymousUser` for a
      request without a bearer header, the token's user otherwise. A token
      that is rejected never reaches a view; it is the absent caller. */
  datatype Principal = Anonymous | SignedIn(id: int, isStaff: bool)

  /** `business.owner == request.user`: `AnonymousUser` owns nothing. */
  predicate Owns(caller: Principal, info: BusinessInfo) {
    caller.SignedIn? && caller.id == info.owner
  }

  /** `request.user.is_staff`, which is false for `AnonymousUser`. */
  predicate IsStaff(caller: Principal) {
    caller.SignedIn? && caller.isStaff
  }

  /** The responses of the three views. */
  datatype Reply =
    | NotAuthenticated
    | NotFound
    | PermissionDenied
    | Found(reputation: Serialized)
    | Updated(reputation: Serialized)
    | BulkUpdated(count: nat)

  /** The businesses, their ads, the interaction log and the reputation table. */
  class Store {
    var businesses: map<int, BusinessInfo>
    /** The business of each ad. */
    var adOwner: map<int, int>
    var events: seq<Event>
    var rows: seq<Reputation>
    var nextId: nat
    /** `calculate_score`, whose body is not part of this model. */
    const scoreOf: Measures -> int

    ghost predicate Valid()
      reads this
    {
      && WellFormed(rows, nextId)
      && (forall i :: 0 <= i < |rows| ==> rows[i].business in businesses)
    }

    constructor (businesses: map<int, BusinessInfo>, adOwner: map<int, int>, scoreOf: Measures -> int)
      ensures Valid()
      ensures this.businesses == businesses && this.adOwner == adOwner && this.scoreOf == scoreOf
      ensures events == [] && rows == []
    {
      this.businesses := businesses;
      this.adOwner := adOwner;
      this.scoreOf := scoreOf;
      events := [];
      rows := [];
      nextId := 0;
    }

    /** `Reputation.objects.get_or_create` for a business that exists. */
    method GetOrCreateRow(business: int, initialScore: int) returns (index: nat, created: bool)
      requires Valid() && business in businesses
      modifies this
      ensures Valid()
      ensures var l := GetOrCreate(old(rows), old(nextId), business, initialScore);
        rows == l.rows && nextId == l.nextId && index == l.index && created == l.created
      ensures RowIndex(rows, business) == Some(index)
      ensures forall other :: other != business ==> RowIndex(rows, other) == RowIndex(old(rows), other)
      ensures businesses == old(businesses) && adOwner == old(adOwner) && events == old(events)
    {
      GetOrCreateWellFormed(rows, nextId, business, initialScore);
      match RowIndex(rows, business)
      case Some(i) =>
        index, created := i, false;
      case None =>
        rows := rows + [NewRow(nextId, business, initialScore)];
        index, created := |rows| - 1, true;
        nextId := nextId + 1;
    }

    /** `reputation.update_from_business(business)`. */
    method UpdateFromBusiness(index: nat)
      requires Valid() && index < |rows|
      modifies this
      ensures Valid()
      ensures rows == RecomputeAt(old(rows), index, events, adOwner, scoreOf)
      ensures forall b :: RowIndex(rows, b) == RowIndex(old(rows), b)
      ensures nextId == old(nextId)
      ensures businesses == old(businesses) && adOwner == old(adOwner) && events == old(events)
    {
      RecomputeAtWellFormed(rows, nextId, index, events, adOwner, scoreOf);
      rows := rows[index := Recompute(rows[index], events, adOwner, scoreOf)];
    }

    /** `BusinessReputationView.get`: 404 for an unknown business; otherwise
        the business's row, inserted with the defaults and recomputed once if
        it did not exist, returned as it is if it did. */
    method Get(business: int) returns (r: Reply)
      requires Valid()
      modifies this
      ensures Valid()
      ensures businesses == old(businesses) && adOwner == old(adOwner) && events == old(events)
      ensures business !in businesses ==> r == NotFound && rows == old(rows) && nextId == old(nextId)
      ensures business in businesses && RowIndex(old(rows), business).Some? ==>
        && rows == old(rows) && nextId == old(nextId)
        && r == Found(Serialize(rows[RowIndex(rows, business).value], businesses[business].name))
      ensures business in businesses && RowIndex(old(rows), business).None? ==>
        && rows == old(rows) + [Recompute(NewRow(old(nextId), business, DefaultScore), events, adOwner, scoreOf)]
        && nextId == old(nextId) + 1
        && r == Found(Serialize(rows[|rows| - 1], businesses[business].name))
    {
      if business !in businesses {
        return NotFound;
      }
      var index, created := GetOrCreateRow(business, DefaultScore);
      if created {
        UpdateFromBusiness(index);
      }
      r := Found(Serialize(rows[index], businesses[business].name));
    }

    /** `UpdateBusinessReputationView.post`: a rejected token is refused
        first; then the business is looked up (404), and only its owner gets
        past the ownership check, so an anonymous caller is refused there;
        the owner gets get-or-create and always a recompute. */
    method Update(business: int, caller: Option<Principal>) returns (r: Reply)
      requires Valid()
      modifies this
      ensures Valid()
      ensures businesses == old(businesses) && adOwner == old(adOwner) && events == old(events)
      ensures caller.None? ==> r == NotAuthenticated
      ensures caller.Some? && business !in businesses ==> r == NotFound
      ensures caller.Some? && business in businesses && !Owns(caller.value, businesses[business]) ==>
        r == PermissionDenied
      ensures caller == Some(Anonymous) ==> r == (if business in businesses then PermissionDenied else NotFound)
      ensures !r.Updated? ==> rows == old(rows) && nextId == old(nextId)
      ensures r.Updated? <==> caller.Some? && business in businesses && Owns(caller.value, businesses[business])
      ensures r.Updated? ==>
        var l := GetOrCreate(old(rows), old(nextId), business, DefaultScore);
        && rows == RecomputeAt(l.rows, l.index, events, adOwner, scoreOf)
        && nextId == l.nextId
        && r == Updated(Serialize(rows[l.index], businesses[business].name))
        && r.reputation.clickCount == Aggregate(events, adOwner, business).clicks
        && r.reputation.viewCount == Aggregate(events, adOwner, business).views
        && r.reputation.searchCount == Aggregate(events, adOwner, business).searches
    {
      if caller.None? {
        return NotAuthenticated;
      }
      if business !in businesses {
        return NotFound;
      }
      if !Owns(caller.value, businesses[business]) {
        return PermissionDenied;
      }
      var index, created := GetOrCreateRow(business, DefaultScore);
      UpdateFromBusiness(index);
      r := Updated(Serialize(rows[index], businesses[business].name));
    }

    /** `BulkUpdateReputationView.post`: a rejected token is refused, and so
        is every caller who is not staff, anonymous ones included. For staff,
        every business gets get-or-create and a recompute, and the reply
        counts the businesses. */
    method BulkUpdate(caller: Option<Principal>) returns (r: Reply)
      requires Valid()
      modifies this
      ensures Valid()
      ensures businesses == old(businesses) && adOwner == old(adOwner) && events == old(events)
      ensures caller.None? ==> r == NotAuthenticated
      ensures caller.Some? && !IsStaff(caller.value) ==> r == PermissionDenied
      ensures !r.BulkUpdated? ==> rows == old(rows) && nextId == old(nextId)
      ensures r.BulkUpdated? <==> caller.Some? && IsStaff(caller.value)
      ensures r.BulkUpdated? ==>
        && r.count == |businesses|
        && |old(rows)| <= |rows|
        && (forall b :: b in businesses ==> RowIndex(rows, b).Some?)
        && (forall i :: 0 <= i < |rows| ==> Refreshed(rows, old(rows), i, events, adOwner, scoreOf))
        && (forall i :: 0 <= i < |rows| ==> rows[i] == Recompute(rows[i], events, adOwner, scoreOf))
    {
      if caller.None? {
        return NotAuthenticated;
      }
      if !IsStaff(caller.value) {
        return PermissionDenied;
      }
      var remaining := businesses.Keys;
      var count := 0;
      ghost var done: set<int> := {};
      while remaining != {}
        invariant Valid()
        invariant businesses == old(businesses) && adOwner == old(adOwner) && events == old(events)
        invariant remaining + done == businesses.Keys && remaining !! done
        invariant count == |done|
        invariant BulkProgress(rows, old(rows), done, events, adOwner, scoreOf)
        decreases remaining
      {
        NonEmptyHasElement(remaining);
        var b :| b in remaining;
        RefreshProgress(old(rows), rows, nextId, b, done, events, adOwner, scoreOf);
        var index, created := GetOrCreateRow(b, DefaultScore);
        UpdateFromBusiness(index);
        remaining := remaining - {b};
        done := done + {b};
        count := count + 1;
      }
      assert done == businesses.Keys;
      forall i | 0 <= i < |rows|
        ensures rows[i] == Recompute(rows[i], events, adOwner, scoreOf)
      {
        var base := if i < |old(rows)| then old(rows)[i] else NewRow(rows[i].id, rows[i].business, DefaultScore);
        RecomputeIdempotent(base, events, adOwner, scoreOf);
      }
      r := BulkUpdated(count);
    }

    /** An `AdClick`, `AdView` or `SearchQuery` row is created: the log
        grows and no cached counter changes until the next recompute. */
    method LogEvent(e: Event)
      requires Valid()
      modifies this
      ensures Valid()
      ensures events == old(events) + [e]
      ensures rows == old(rows) && nextId == old(nextId)
      ensures businesses == old(businesses) && adOwner == old(adOwner)
    {
      events := events + [e];
    }

    /** The sample-data script's `get_or_create`, whose default score is 0. */
    method SeedReputation(business: int) returns (created: bool)
      requires Valid() && business in businesses
      modifies this
      ensures Valid()
      ensures var l := GetOrCreate(old(rows), old(nextId), business, SampleScore);
        rows == l.rows && nextId == l.nextId && created == l.created
      ensures RowIndex(rows, business).Some? && RowsOf(rows, business) == {RowIndex(rows, business).value}
      ensures businesses == old(businesses) && adOwner == old(adOwner) && events == old(events)
    {
      var index;
      index, created := GetOrCreateRow(business, SampleScore);
      OnlyRowOf(rows, business);
    }

    /** The test script's recount: `Reputation.objects.get` fails when the
        business has no row; otherwise the three counters are rebuilt from
        the log and the score recomputed. */
    method RecountCounters(business: int) returns (found: bool)
      requires Valid()
      modifies this
      ensures Valid()
      ensures found <==> RowIndex(old(rows), business).Some?
      ensures !found ==> rows == old(rows)
      ensures found ==> rows == RecomputeAt(old(rows), RowIndex(old(rows), business).value, events, adOwner, scoreOf)
      ensures forall b :: RowIndex(rows, b) == RowIndex(old(rows), b)
      ensures found ==> var row := rows[RowIndex(rows, business).value];
        row.clickCount == Aggregate(events, adOwner, business).clicks
        && row.viewCount == Aggregate(events, adOwner, business).views
        && row.searchCount == Aggregate(events, adOwner, business).searches
      ensures nextId == old(nextId)
      ensures businesses == old(businesses) && adOwner == old(adOwner) && events == old(events)
    {
      match RowIndex(rows, business)
      case None =>
        found := false;
      case Some(i) =>
        UpdateFromBusiness(i);
        found := true;
    }
  }
}

/**
 * The client's interaction-tracking hooks. One tracker instance keeps the
 * set of ads whose view has been recorded and the set of ads with a recorded
 * click; every request goes to the interactions API, whose outcome (resolved
 * or rejected) is a parameter. The search hook debounces: each call cancels
 * the pending timer, and only a non-blank query schedules a new one.
 */
module InteractionTracking {
  import opened Wrappers
  import opened JsBuiltins

  /** A request to the interactions API. */
  datatype Interaction =
    | ViewOf(ad: int)
    | ClickOf(ad: int, referrer: Option<string>)
    | ShareOf(ad: int)
    | SearchOf(query: string, resultsCount: Option<int>, clickedAd: Option<int>, clickedBusiness: Option<int>)

  /** How many successful view requests for `ad` the log holds. */
  function ViewsOf(log: seq<Interaction>, ad: int): (n: nat)
    ensures n <= |log|
  {
    if log == [] then 0
    else ViewsOf(log[..|log| - 1], ad) + (if log[|log| - 1] == ViewOf(ad) then 1 else 0)
  }

  /** Appending a request adds one exactly when it is a view of `ad`. */
  lemma ViewsOfAppend(log: seq<Interaction>, x: Interaction, ad: int)
    ensures ViewsOf(log + [x], ad) == ViewsOf(log, ad) + (if x == ViewOf(ad) then 1 else 0)
  {
    assert (log + [x])[..|log|] == log;
  }

  /** A log holds a view of `ad` exactly when it counts at least one. */
  lemma {:induction false} ViewsOfPositive(log: seq<Interaction>, ad: int)
    ensures ViewsOf(log, ad) > 0 <==> ViewOf(ad) in log
  {
    if log != [] {
      var init := log[..|log| - 1];
      ViewsOfPositive(init, ad);
      assert log == init + [log[|log| - 1]];
    }
  }

  /** The tracker that `useInteractionTracking` returns. Each tracking call
      runs in two steps, as an `async` function does: the part before its
      `await` issues the request, and the part after it runs when that
      request settles, possibly after other calls have been issued. */
  class Tracker {
    var trackedViews: set<int>
    var trackedClicks: set<int>
    /** Every request sent, in order. */
    var sent: seq<Interaction>
    /** The positions in `sent` of the requests still awaiting their answer. */
    var inFlight: set<nat>
    /** The requests that resolved, in the order they resolved. */
    var delivered: seq<Interaction>

    /** A view is tracked exactly for the ads with a delivered view, and only
        sent requests are in flight or delivered. */
    ghost predicate Valid()
      reads this
    {
      && (forall h :: h in inFlight ==> h < |sent|)
      && (forall i :: 0 <= i < |delivered| ==> delivered[i] in sent)
      && (forall ad :: ad in trackedViews <==> ViewOf(ad) in delivered)
    }

    constructor ()
      ensures Valid()
      ensures trackedViews == {} && trackedClicks == {}
      ensures sent == [] && inFlight == {} && delivered == []
    {
      trackedViews := {};
      trackedClicks := {};
      sent := [];
      inFlight := {};
      delivered := [];
    }

    /** Sends `x` and returns its position in `sent`, now awaiting an answer. */
    method Issue(x: Interaction) returns (h: nat)
      requires Valid()
      modifies this
      ensures Valid()
      ensures h == |old(sent)| && sent == old(sent) + [x] && inFlight == old(inFlight) + {h}
      ensures trackedViews == old(trackedViews) && trackedClicks == old(trackedClicks)
      ensures delivered == old(delivered)
    {
      h := |sent|;
      sent := sent + [x];
      inFlight := inFlight + {h};
    }

    /** `trackView` up to its `await`: nothing is sent for an ad already
        tracked; otherwise the view is sent and awaits its answer. The ad
        is not tracked yet, so a second call before this one settles sends
        the view again. */
    method TrackView(adId: int) returns (h: Option<nat>)
      requires Valid()
      modifies this
      ensures Valid()
      ensures trackedViews == old(trackedViews) && trackedClicks == old(trackedClicks)
      ensures delivered == old(delivered)
      ensures adId in old(trackedViews) ==> h.None? && sent == old(sent) && inFlight == old(inFlight)
      ensures adId !in old(trackedViews) ==>
        && h == Some(|old(sent)|)
        && sent == old(sent) + [ViewOf(adId)]
        && inFlight == old(inFlight) + {|old(sent)|}
    {
      if adId in trackedViews {
        return None;
      }
      var n := Issue(ViewOf(adId));
      h := Some(n);
    }

    /** `trackClick` up to its `await`: every click is sent. */
    method TrackClick(adId: int, referrer: Option<string>) returns (h: nat)
      requires Valid()
      modifies this
      ensures Valid()
      ensures trackedViews == old(trackedViews) && trackedClicks == old(trackedClicks)
      ensures delivered == old(delivered)
      ensures h == |old(sent)| && sent == old(sent) + [ClickOf(adId, referrer)]
      ensures inFlight == old(inFlight) + {h}
    {
      h := Issue(ClickOf(adId, referrer));
    }

    /** `trackShare` up to its `await`: every share is sent. */
    method TrackShare(adId: int) returns (h: nat)
      requires Valid()
      modifies this
      ensures Valid()
      ensures trackedViews == old(trackedViews) && trackedClicks == old(trackedClicks)
      ensures delivered == old(delivered)
      ensures h == |old(sent)| && sent == old(sent) + [ShareOf(adId)]
      ensures inFlight == old(inFlight) + {h}
    {
      h := Issue(ShareOf(adId));
    }

    /** `trackSearch` up to its `await`: every search is sent with its arguments. */
    method TrackSearch(query: string, resultsCount: Option<int>, clickedAd: Option<int>,
                       clickedBusiness: Option<int>) returns (h: nat)
      requires Valid()
      modifies this
      ensures Valid()
      ensures trackedViews == old(trackedViews) && trackedClicks == old(trackedClicks)
      ensures delivered == old(delivered)
      ensures h == |old(sent)| && sent == old(sent) + [SearchOf(query, resultsCount, clickedAd, clickedBusiness)]
      ensures inFlight == old(inFlight) + {h}
    {
      h := Issue(SearchOf(query, resultsCount, clickedAd, clickedBusiness));
    }

    /** The request at `h` settles, and the code after its `await` runs: a
        resolved view tracks its ad, a resolved click adds its ad to the
        click set, and a rejection only leaves the request behind. */
    method Settle(h: nat, resolves: bool)
      requires Valid() && h in inFlight
      modifies this
      ensures Valid()
      ensures sent == old(sent) && inFlight == old(inFlight) - {h}
      ensures delivered == (if resolves then old(delivered) + [sent[h]] else old(delivered))
      ensures trackedViews ==
        (if resolves && sent[h].ViewOf? then old(trackedViews) + {sent[h].ad} else old(trackedViews))
      ensures trackedClicks ==
        (if resolves && sent[h].ClickOf? then old(trackedClicks) + {sent[h].ad} else old(trackedClicks))
    {
      inFlight := inFlight - {h};
      if resolves {
        var x := sent[h];
        delivered := delivered + [x];
        if x.ViewOf? {
          trackedViews := trackedViews + {x.ad};
        } else if x.ClickOf? {
          trackedClicks := trackedClicks + {x.ad};
        }
      }
    }

    /** `await trackView(adId)`: the view is issued and settles before
        anything else happens. Calls awaited one after another never
        deliver a second view of an ad. */
    method TrackViewAwaited(adId: int, resolves: bool)
      requires Valid()
      modifies this
      ensures Valid()
      ensures inFlight == old(inFlight) && trackedClicks == old(trackedClicks)
      ensures adId in old(trackedViews) ==>
        trackedViews == old(trackedViews) && sent == old(sent) && delivered == old(delivered)
      ensures adId !in old(trackedViews) ==>
        && sent == old(sent) + [ViewOf(adId)]
        && trackedViews == (if resolves then old(trackedViews) + {adId} else old(trackedViews))
        && delivered == (if resolves then old(delivered) + [ViewOf(adId)] else old(delivered))
      ensures (forall ad :: ViewsOf(old(delivered), ad) <= 1) ==> forall ad :: ViewsOf(delivered, ad) <= 1
    {
      ghost var before := delivered;
      var h := TrackView(adId);
      if h.Some? {
        Settle(h.value, resolves);
        if resolves {
          ViewsOfPositive(before, adId);
          forall ad ensures ViewsOf(delivered, ad) == ViewsOf(before, ad) + (if ad == adId then 1 else 0) {
            ViewsOfAppend(before, ViewOf(adId), ad);
          }
        }
      }
    }

    /** `useTrackAdView`: for a truthy id, the 500 ms timer calls `trackView`
        if it fires before the component unmounts; the request settles later. */
    method TrackAdView(adId: Option<int>, firesBeforeUnmount: bool) returns (h: Option<nat>)
      requires Valid()
      modifies this
      ensures Valid()
      ensures trackedViews == old(trackedViews) && trackedClicks == old(trackedClicks)
      ensures delivered == old(delivered)
      ensures (adId.None? || adId.value == 0 || !firesBeforeUnmount || adId.value in old(trackedViews)) ==>
        h.None? && sent == old(sent) && inFlight == old(inFlight)
      ensures adId.Some? && adId.value != 0 && firesBeforeUnmount && adId.value !in old(trackedViews) ==>
        && h == Some(|old(sent)|)
        && sent == old(sent) + [ViewOf(adId.value)]
        && inFlight == old(inFlight) + {|old(sent)|}
    {
      h := None;
      if adId.Some? && adId.value != 0 && firesBeforeUnmount {
        h := TrackView(adId.value);
      }
    }
  }

  /** Two `trackView(ad)` calls for an untracked ad, both issued before
      either settles, both pass the `has` check; once both resolve, two more
      views of the ad are delivered and the ad is tracked. */
  method OverlappingViews(t: Tracker, ad: int)
    requires t.Valid() && ad !in t.trackedViews
    modifies t
    ensures t.Valid()
    ensures ad in t.trackedViews && t.inFlight == old(t.inFlight)
    ensures t.delivered == old(t.delivered) + [ViewOf(ad), ViewOf(ad)]
    ensures ViewsOf(t.delivered, ad) == ViewsOf(old(t.delivered), ad) + 2
  {
    var first, second := IssueTwoViews(t, ad);
    SettleView(t, first, ad);
    SettleView(t, second, ad);
  }

  /** Both `trackView(ad)` calls get past the `has` check and send. */
  method IssueTwoViews(t: Tracker, ad: int) returns (first: nat, second: nat)
    requires t.Valid() && ad !in t.trackedViews
    modifies t
    ensures t.Valid() && first != second
    ensures t.inFlight == old(t.inFlight) + {first, second}
    ensures first !in old(t.inFlight) && second !in old(t.inFlight)
    ensures t.sent[first] == ViewOf(ad) && t.sent[second] == ViewOf(ad)
    ensures t.delivered == old(t.delivered) && t.trackedViews == old(t.trackedViews)
  {
    var h1 := t.TrackView(ad);
    var h2 := t.TrackView(ad);
    first, second := h1.value, h2.value;
  }

  /** A `trackView(ad)` request resolves. */
  method SettleView(t: Tracker, h: nat, ad: int)
    requires t.Valid() && h in t.inFlight && h < |t.sent| && t.sent[h] == ViewOf(ad)
    modifies t
    ensures t.Valid() && t.inFlight == old(t.inFlight) - {h} && t.sent == old(t.sent)
    ensures t.delivered == old(t.delivered) + [ViewOf(ad)]
    ensures t.trackedViews == old(t.trackedViews) + {ad}
    ensures ViewsOf(t.delivered, ad) == ViewsOf(old(t.delivered), ad) + 1
  {
    t.Settle(h, true);
    ViewsOfAppend(old(t.delivered), ViewOf(ad), ad);
  }

  /** `!query.trim()`: nothing but white space. */
  predicate IsBlank(query: string) {
    forall i :: 0 <= i < |query| ==> IsWhitespace(query[i])
  }

  /** A query is blank exactly when trimming leaves the empty string. */
  lemma BlankIsEmptyTrim(query: string)
    ensures IsBlank(query) <==> Trim(query) == []
  {
  }

  /** A search waiting on its debounce timer. */
  datatype PendingSearch = PendingSearch(query: string, resultsCount: Option<int>)

  /** `useTrackSearch`: the timer slot `timeoutRef` and the timers still scheduled. */
  class SearchDebouncer {
    /** The handle last stored in `timeoutRef.current`, if any. */
    var timeoutRef: Option<nat>
    /** Timers scheduled and neither fired nor cleared. */
    var timers: map<int, PendingSearch>
    var nextHandle: nat
    /** The searches whose timer fired, handed to `trackSearch`. */
    var fired: seq<PendingSearch>

    /** At most one search is pending, and it is the one in `timeoutRef`. */
    ghost predicate Valid()
      reads this
    {
      && (forall h :: h in timers ==> timeoutRef == Some(h))
      && (timeoutRef.Some? ==> timeoutRef.value < nextHandle)
    }

    /** At most one timer is ever scheduled. */
    lemma AtMostOnePending()
      requires Valid()
      ensures |timers.Keys| <= 1
    {
      ClearingEmpties();
      match timeoutRef
      case None =>
      case Some(v) =>
        if v in timers {
          assert timers.Keys == (timers - {v}).Keys + {v};
        } else {
          assert timers == timers - {v};
        }
    }

    /** Clearing `timeoutRef.current` leaves no timer scheduled. */
    lemma ClearingEmpties()
      requires Valid()
      ensures timeoutRef.None? ==> timers == map[]
      ensures timeoutRef.Some? ==> timers - {timeoutRef.value} == map[]
    {
      if timeoutRef.None? {
        assert forall h :: h !in timers;
      } else {
        assert forall h :: h !in timers - {timeoutRef.value};
      }
    }

    constructor ()
      ensures Valid()
      ensures timeoutRef.None? && timers == map[] && fired == []
    {
      timeoutRef := None;
      timers := map[];
      nextHandle := 0;
      fired := [];
    }

    /** `clearTimeout(timeoutRef.current)`: no timer stays scheduled. */
    method ClearPending()
      requires Valid()
      modifies this
      ensures Valid()
      ensures timers == map[] && timeoutRef == old(timeoutRef)
      ensures nextHandle == old(nextHandle) && fired == old(fired)
    {
      ClearingEmpties();
      if timeoutRef.Some? {
        timers := timers - {timeoutRef.value};
      }
    }

    /** `debouncedTrackSearch`: clears the pending timer, then schedules the
        query unless it is blank. */
    method Call(query: string, resultsCount: Option<int>)
      requires Valid()
      modifies this
      ensures Valid()
      ensures fired == old(fired)
      ensures IsBlank(query) ==> timers == map[] && timeoutRef == old(timeoutRef)
      ensures !IsBlank(query) ==>
        && timeoutRef == Some(old(nextHandle))
        && timers == map[old(nextHandle) := PendingSearch(query, resultsCount)]
    {
      ClearPending();
      if IsBlank(query) {
        return;
      }
      timers := map[nextHandle := PendingSearch(query, resultsCount)];
      timeoutRef := Some(nextHandle);
      nextHandle := nextHandle + 1;
    }

    /** The timer `h` elapses: its search is handed to `trackSearch`. */
    method Fire(h: int)
      requires Valid() && h in timers
      modifies this
      ensures Valid()
      ensures fired == old(fired) + [old(timers)[h]]
      ensures timers == map[] && timeoutRef == old(timeoutRef)
    {
      ClearingEmpties();
      fired := fired + [timers[h]];
      timers := timers - {h};
    }

    /** The unmount cleanup: clears the pending timer. */
    method Unmount()
      requires Valid()
      modifies this
      ensures Valid()
      ensures timers == map[] && fired == old(fired) && timeoutRef == old(timeoutRef)
    {
      ClearPending();
    }
  }
}

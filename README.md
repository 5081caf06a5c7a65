# AdVouch reputation pipeline in Dafny

AdVouch is a local-services marketplace. Businesses post ads, and visitors
view, click, share and search them. The backend keeps one cached
`Reputation` row per business. The web client shows that reputation as a
badge, a map marker and a quality word, and it ranks businesses and ads.
This project models that pipeline and proves properties about the model:

- **Reputation store** (`reputation_store.dfy`). The reputation table has
  no uniqueness constraint on its business column. Every view reaches it
  through get-or-create, and "one row per business" is an invariant that
  the class `ReputationStore.Store` keeps across the three views
  (get, owner update, staff bulk update).
- **Aggregation** (`aggregation.dfy`). A recompute rebuilds the click,
  view and search counters of a business from the whole event log. The score
  formula is a parameter.
- **Reputation presentation** (`reputation_badge.dfy`, `service_map.dfy`,
  `businesses_page.dfy`):
  - the seven-tier badge with its stars, sign and tooltip table;
  - the five-colour map marker, the 25-tile grid and the zoom clamp;
  - the directory page's filter and sort, and its four quality words.
- **Home page** (`home_page.dfy`). Popular ads and popular businesses, from
  the API and from the mock data. The fallback sorts the shared mock arrays
  in place.
- **Client session state** (`session_types.dfy`, `api_client.dfy`, `auth.dfy`,
  `interaction_tracking.dfy`):
  - the two-layer access-token cache (a module variable plus local storage);
  - the stored user record;
  - the single retry on a 401;
  - the view-deduplication sets and the search debouncer.
- **Identifier generation** (`random_strings.dfy`). Random alphanumeric
  strings (CSRF tokens and session ids), and the PKCE code verifier as
  unpadded base64url (RFC 4648 section 5), checked against the bounds of
  RFC 7636 section 4.1.
- **Shared helpers** (`wrappers.dfy`, `js_builtins.dfy`, `sorting.dfy`):
  - the JavaScript built-ins the client relies on (`parseInt`, `isNaN`,
    `toLowerCase`, `includes`, `trim`, number-to-string);
  - a stable `Array.prototype.sort` driven by a comparator.

The source's random bytes, clock, browser check and request outcomes are
parameters of the model. Server state changes in place in a class; pure
client pipelines are functions.

## Model

| member | source | states |
|---|---|---|
| ReputationStore.NewRow | resource/reputation/views.py:40-51 | the inserted row carries the given id, business and score, and every counter is 0 with average 0.0 |
| ReputationStore.RecomputeCounts | resource/test_api_endpoints.py:159-167 | after a recompute, clicks, views and searches equal the business's event counts, the score is the formula applied to the new measures, and every other field is kept |
| ReputationStore.RecomputeOverwrites | resource/test_api_endpoints.py:160-162 | a recompute does not depend on the counters or the score the row had before |
| ReputationStore.RecomputeIdempotent | resource/test_api_endpoints.py:159-167 | recomputing twice with no new events gives the same row |
| ReputationStore.RowIndex | resource/reputation/views.py:40-41 | the lookup finds the first row of the business, and none exactly when no row has that business |
| ReputationStore.OnlyRowOf | resource/reputation/models.py:5 | when each business has at most one row, the rows of a business are exactly the one the lookup finds, or none |
| ReputationStore.GetOrCreate | resource/reputation/views.py:40-51 | the returned index holds a row of the business, and `created` holds exactly when no row existed |
| ReputationStore.GetOrCreateWellFormed | resource/reputation/views.py:40-51 | get-or-create keeps one row per business and ids below the next id; creating appends exactly one default row, finding changes nothing, and no other business's row moves |
| ReputationStore.GetOrCreateRepeated | resource/test_api_endpoints.py:55-70 | a second get-or-create for the same business creates nothing and leaves exactly one row |
| ReputationStore.RecomputeAtWellFormed | resource/reputation/views.py:94 | recomputing one row keeps the table well formed, and every business's row stays where it was |
| ReputationStore.SerializeKeepsEveryField | resource/reputation/views.py:12-28 | two rows serialize alike exactly when they are equal, and the business name is carried |
| ReputationStore.RefreshProgress | resource/reputation/views.py:122-136 | one step of the bulk loop keeps the table well formed and adds one business to the set whose rows are refreshed, leaving the other rows alone |
| ReputationStore.Store.constructor | resource/reputation/models.py:4-9 | the store starts with no rows and no events, over the given businesses, ad owners and score formula |
| ReputationStore.Store.GetOrCreateRow | resource/reputation/views.py:40-51 | the table and the next id become those of get-or-create; the business then has its row at `index`, and every other business keeps its row |
| ReputationStore.Store.UpdateFromBusiness | resource/reputation/views.py:94 | the row at `index` is recomputed from the event log, and every business's row stays where it was |
| ReputationStore.Store.Get | resource/reputation/views.py:36-57 | an unknown business gives NotFound and changes nothing; an existing row is returned unchanged, without a recompute; a missing row is inserted with score 50, recomputed once and returned |
| ReputationStore.Store.Update | resource/reputation/views.py:66-100 | a rejected token gives NotAuthenticated; an unknown business gives NotFound, for an anonymous caller too; a caller who is not the owner, an anonymous one included, gives PermissionDenied and changes nothing; the owner always gets a get-or-create plus a recompute, and the reply's counters equal the aggregated counts |
| ReputationStore.Store.BulkUpdate | resource/reputation/views.py:108-142 | a rejected token gives NotAuthenticated; a caller who is not staff, an anonymous one included, gives PermissionDenied and changes nothing; for staff the count is the number of businesses, every business has a row, every row is the recompute of its earlier or default state, and each row is a fixpoint of recompute |
| ReputationStore.Store.LogEvent | resource/test_api_endpoints.py:115-152 | the event is appended to the log and the table is unchanged |
| ReputationStore.Store.SeedReputation | resource/test_api_endpoints.py:55-70 | a get-or-create with score 0, after which the business has exactly one row |
| ReputationStore.Store.RecountCounters | resource/test_api_endpoints.py:157-167 | the business's row is recomputed when it exists, and its counters equal the aggregated counts; nothing changes when it does not exist |
| Aggregation.Count | resource/test_api_endpoints.py:160-162 | a count never exceeds the length of the log |
| Aggregation.CountIsSelectedEvents | resource/test_api_endpoints.py:160-162 | the count is the number of log positions whose event the counter attributes to the business |
| Aggregation.CountAppend | resource/test_api_endpoints.py:160-162 | appending an event adds one exactly when the event is attributed to the business |
| Aggregation.CountConcat | resource/test_api_endpoints.py:160-162 | counting a concatenated log adds the counts of its parts |
| Aggregation.CountNone | resource/test_api_endpoints.py:160-162 | a log with no attributed event counts 0 |
| Aggregation.Aggregate | resource/test_api_endpoints.py:160-162 | each of the three counters is at most the length of the log |
| Aggregation.AggregateCountsEvents | resource/test_api_endpoints.py:160-162 | clicks and views are the numbers of click and view events on the business's ads; searches are the searches whose clicked ad belongs to the business, so a search with no clicked ad is not counted |
| Aggregation.ForeignEventsIgnored | resource/test_api_endpoints.py:160-162 | events on other businesses' ads, or on no ad, do not change the counters |
| Aggregation.OwnEventAddsOne | resource/test_api_endpoints.py:115-162 | one more event on the business's ad raises exactly the matching counter by 1 |
| ReputationBadge.TierBands | web/components/reputation-badge.tsx:12-76 | each integer score falls in exactly one of the seven tiers, at thresholds 100, 60, 20, -19, -59 and -99 |
| ReputationBadge.DataOfTier | web/components/reputation-badge.tsx:13-75 | each tier's record has that tier's stars and emoji |
| ReputationBadge.StarsOf | web/components/reputation-badge.tsx:18-72 | stars are at most 5 |
| ReputationBadge.StarsOfIsDataStars | web/components/reputation-badge.tsx:18-72 | the stars are those of the record `getReputationData` returns |
| ReputationBadge.StarsMonotone | web/components/reputation-badge.tsx:18-72 | stars never decrease as the score increases |
| ReputationBadge.ScoreTextSign | web/components/reputation-badge.tsx:107-108 | the text starts with "+" exactly when the score is positive and with "-" exactly when negative; 0 shows as "0"; the text parses back to the score |
| ReputationBadge.StarRatingFilled | web/components/reputation-badge.tsx:86-97 | a rating shows exactly 5 icons, and `stars` of them are filled |
| ReputationBadge.TooltipMatchesClassification | web/components/reputation-badge.tsx:135-142 | a score falls in a line's range exactly when the line names the score's tier |
| ReputationBadge.LineShowsTier | web/components/reputation-badge.tsx:136-142 | each tooltip line shows its tier's emoji and star count |
| ReputationBadge.TooltipLinesMatchTiers | web/components/reputation-badge.tsx:135-142 | every tooltip line agrees with the badge record of its tier |
| ServiceMap.MarkerBands | web/components/map/service-map.tsx:31-38 | the marker is green from 60, yellow for 20..59, gray for -19..19, orange for -59..-20 and red at -60 and below |
| ServiceMap.MarkerAgreesWithBadge | web/components/map/service-map.tsx:31-38 | the marker colour is the colour of the badge emoji for the same score |
| ServiceMap.GridIndex | web/components/map/service-map.tsx:112-119 | the tile pushed for offsets (dx, dy) is the centre tile plus those offsets |
| ServiceMap.BuildTiles | web/components/map/service-map.tsx:108-121 | the nested loops push exactly 25 tiles, tile k being the k-th of the offset grid |
| ServiceMap.GridCoversOffsets | web/components/map/service-map.tsx:112-121 | the 25 tiles carry offsets -2..2 on each axis, each equals the centre plus its offsets, every offset pair occurs, and all tiles are distinct |
| ServiceMap.MarkerOnItsTile | web/components/map/service-map.tsx:123-131 | the centre tile's marker is at (512, 512), and each grid tile's marker lies at that tile's left and top corner |
| ServiceMap.ZoomStaysInRange | web/components/map/service-map.tsx:208-216 | any sequence of presses keeps the zoom within 8..18 |
| ServiceMap.MapView.constructor | web/components/map/service-map.tsx:41 | the zoom starts at 13 |
| ServiceMap.MapView.Press | web/components/map/service-map.tsx:208-216 | a press moves the zoom one step, clamped to 8..18 |
| BusinessesPage.WithUsableIds | web/app/businesses/page.tsx:49-50 | only records with a truthy, non-NaN id remain, none is added, and every such record is kept |
| BusinessesPage.WithUsableIdsAppend | web/app/businesses/page.tsx:49-50 | filtering a concatenation filters each part, so the kept records stay in their order |
| BusinessesPage.WithUsableIdsSingleton | web/app/businesses/page.tsx:49-50 | a single record is kept exactly when its id is usable |
| BusinessesPage.FilterBusinesses | web/app/businesses/page.tsx:66-73 | the filter succeeds exactly when no callback throws; it then keeps exactly the businesses that match the search and the category, and adds none |
| BusinessesPage.ReputationOrderIsConsistent | web/app/businesses/page.tsx:75 | the reputation comparator is total and transitive |
| BusinessesPage.FilteredBusinessesListing | web/app/businesses/page.tsx:66-78 | the listing is a permutation of the filtered businesses; it is non-increasing by reputation (missing counts as 0) for "reputation", sorted by the comparator for "name" when the comparator is consistent, and in loaded order for any other key |
| BusinessesPage.ColorAndBadgeAgree | web/app/businesses/page.tsx:113-125 | colour and word use the same bands: 80 and up Excellent in green, 50..79 Good in yellow, 0..49 Fair in orange, below 0 Poor in red |
| HomePage.Take | web/app/page.tsx:33 | `slice(0, n)` is the prefix of length min(n, length) |
| HomePage.PopularAdsFromApi | web/app/page.tsx:30-34 | the first min(4, n) of the n fetched ads with usable ids, in the API's order, each from the fetched list |
| HomePage.TopFourOfSorted | web/app/page.tsx:53-54 | the sort keeps min(4, n) of the n businesses, non-increasing by reputation, all from the list, and no left-out business ranks higher |
| HomePage.PopularBusinessesAreTopFour | web/app/page.tsx:50-55 | popular businesses are min(4, n) of the n fetched businesses with usable ids, have usable ids, come from the fetched list, are non-increasing by reputation, and no usable business left out ranks higher |
| HomePage.MapKeepingNumericIds | web/app/page.tsx:37-46 | the fallbacks' `.map(...).filter(...)` never lengthens the list, leaves no NaN id, yields only converted input records, and keeps every converted record whose id is a number |
| HomePage.MapKeepingNumericIdsAppend | web/app/page.tsx:58-66 | converting a concatenation converts each part, so the kept records stay in their order |
| HomePage.MapKeepingNumericIdsSingleton | web/app/page.tsx:58-66 | a single record yields its conversion exactly when the converted id is a number |
| HomePage.FallbackPopularAds | web/app/page.tsx:37-46 | the shared mock-ad array is left sorted by views in place, and the result is its first four mapped |
| HomePage.FallbackPopularBusinesses | web/app/page.tsx:58-66 | the shared mock-business array is left sorted by reputation in place, and the result is its first four mapped |
| HomePage.NaNIdsDropped | web/app/page.tsx:59-66 | when every id parses to NaN, nothing survives the filter |
| HomePage.NaNPoolYieldsNothing | web/app/page.tsx:58-66 | whatever order a pool of NaN-id businesses is in, the fallback yields nothing |
| HomePage.MockBusinessIdsAreNaN | web/lib/mock-data.ts:184-275 | every mock business id ("b1" to "b6") parses to NaN |
| HomePage.FallbackBusinessesEmpty | web/app/page.tsx:58-66 | the fallback popular-business list is empty for any arrangement of the mock businesses |
| HomePage.MockAdsByViews | web/lib/mock-data.ts:58-155 | sorting the mock ads by views gives the learning, security, travel, meal-kit, fitness and fashion ads, in that order |
| HomePage.NumericIdsKept | web/app/page.tsx:37-46 | when every id is numeric, every ad survives and each is the mapped mock ad |
| HomePage.TopAdsMapped | web/app/page.tsx:38-46 | four mock ads with ids "3", "5", "6" and "4" map to ids 3, 5, 6 and 4, with their views as share counts |
| HomePage.MockAdsSortUniquely | web/app/page.tsx:37 | sorting the mock ads by views gives the same list whatever order the shared array is in |
| HomePage.FirstFallbackAds | web/app/page.tsx:37-46 | on the first fallback the popular ads are ids 3, 5, 6 and 4, with share counts 2100, 1780, 1620 and 1450 |
| HomePage.FallbackAdsFromMockData | web/app/page.tsx:37-46 | for any reordering of the shared mock-ad array, the fallback popular ads are ids 3, 5, 6 and 4, with share counts 2100, 1780, 1620 and 1450 |
| InteractionTracking.ViewsOfAppend | web/hooks/use-interaction-tracking.ts:24 | a request adds one to an ad's view count exactly when it is a view of that ad |
| InteractionTracking.ViewsOfPositive | web/hooks/use-interaction-tracking.ts:24 | an ad has a positive view count exactly when a view of it was delivered |
| InteractionTracking.Tracker.constructor | web/hooks/use-interaction-tracking.ts:10-11 | both sets start empty, with nothing sent, in flight or delivered |
| InteractionTracking.Tracker.Issue | web/hooks/use-interaction-tracking.ts:24 | the request is appended to what was sent and is in flight at its position; nothing else changes |
| InteractionTracking.Tracker.TrackView | web/hooks/use-interaction-tracking.ts:17-24 | a tracked ad sends nothing; otherwise the view is sent and left in flight, and the ad is not yet tracked |
| InteractionTracking.Tracker.TrackClick | web/hooks/use-interaction-tracking.ts:36-38 | every click is sent, with no dedupe, and left in flight |
| InteractionTracking.Tracker.TrackShare | web/hooks/use-interaction-tracking.ts:49-51 | every share is sent and left in flight |
| InteractionTracking.Tracker.TrackSearch | web/hooks/use-interaction-tracking.ts:61-68 | every search is sent with its arguments and left in flight |
| InteractionTracking.Tracker.Settle | web/hooks/use-interaction-tracking.ts:23-43 | the request leaves the in-flight set; when it resolves it is delivered, a view tracks its ad and a click adds its ad to the click set; a rejection changes nothing else |
| InteractionTracking.Tracker.TrackViewAwaited | web/hooks/use-interaction-tracking.ts:17-30 | an awaited `trackView` sends nothing for a tracked ad, otherwise sends the view and tracks the ad exactly when it resolves; calls awaited one after another keep at most one delivered view per ad |
| InteractionTracking.Tracker.TrackAdView | web/hooks/use-interaction-tracking.ts:86-99 | an undefined or zero id, an unmount before the timer, or an ad already tracked sends nothing; otherwise the view is sent and left in flight, exactly as `trackView` does |
| InteractionTracking.OverlappingViews | web/hooks/use-interaction-tracking.ts:17-25 | for an untracked ad, two `trackView` calls issued before either settles both send; once both resolve, two more views of the ad are delivered and it is tracked |
| InteractionTracking.BlankIsEmptyTrim | web/hooks/use-interaction-tracking.ts:116 | a query counts as blank exactly when `trim` leaves the empty string |
| InteractionTracking.SearchDebouncer.AtMostOnePending | web/hooks/use-interaction-tracking.ts:108-126 | at most one search timer is ever scheduled |
| InteractionTracking.SearchDebouncer.ClearingEmpties | web/hooks/use-interaction-tracking.ts:111-113 | clearing the timer in `timeoutRef` leaves no timer scheduled |
| InteractionTracking.SearchDebouncer.constructor | web/hooks/use-interaction-tracking.ts:106 | no timer is pending and nothing has fired |
| InteractionTracking.SearchDebouncer.Call | web/hooks/use-interaction-tracking.ts:108-126 | each call cancels the pending timer; a blank query schedules nothing; any other query becomes the one pending search |
| InteractionTracking.SearchDebouncer.Fire | web/hooks/use-interaction-tracking.ts:121-123 | the elapsed timer's search is handed on, and no timer remains |
| InteractionTracking.SearchDebouncer.Unmount | web/hooks/use-interaction-tracking.ts:129-135 | unmounting cancels the pending timer |
| ApiClient.StoreToken | web/lib/api-client.ts:21-26 | in the browser, storage then holds the token under "access_token"; every other key is unchanged |
| ApiClient.RemoveToken | web/lib/api-client.ts:36-41 | in the browser, storage then has no token; every other key is unchanged |
| ApiClient.ReadKeepsCachedToken | web/lib/api-client.ts:28-34 | a non-empty cached token is returned and never overwritten from storage |
| ApiClient.ReadAfterStore | web/lib/api-client.ts:21-34 | after `setAccessTokenCache(t)`, `getAccessTokenCache()` returns t |
| ApiClient.ReadAfterRemove | web/lib/api-client.ts:28-41 | after `clearAccessTokenCache()`, `getAccessTokenCache()` returns null |
| ApiClient.ReadIsStable | web/lib/api-client.ts:28-34 | reading twice gives what reading once gives |
| ApiClient.MockTokensDistinct | web/lib/api-client.ts:116 | mock tokens minted at different times differ |
| ApiClient.RequestPlanRetriesOnce | web/lib/api-client.ts:250-289 | the first fetch carries the cached token; a 401 causes exactly one refresh; a second fetch happens exactly when that refresh returned a token, it carries the new token, and its status is returned; the client redirects to /auth exactly on a 401 with no new token in the browser |
| ApiClient.Client.constructor | web/lib/api-client.ts:14-19 | in the browser the cache starts from the stored token, elsewhere empty |
| ApiClient.Client.SetAccessTokenCache | web/lib/api-client.ts:21-26 | the memory layer holds the token, and storage is updated as StoreToken says |
| ApiClient.Client.GetAccessTokenCache | web/lib/api-client.ts:28-34 | it returns the cached token, or the stored one when the cache is empty, and caches that result |
| ApiClient.Client.ClearAccessTokenCache | web/lib/api-client.ts:36-41 | both layers are emptied |
| ApiClient.Client.Authenticate | web/lib/api-client.ts:112-124 | the mock token returned is exactly the one cached and stored, with the mock user and refresh token |
| ApiClient.Client.RefreshToken | web/lib/api-client.ts:182-185 | the mock refresh returns null |
| ApiClient.Client.UpdateUserType | web/lib/api-client.ts:213-218 | the mock user's type becomes the given one, and nothing else changes |
| ApiClient.Client.Logout | web/lib/api-client.ts:230-235 | the mock logout clears both token layers |
| ApiClient.Client.ApiRequest | web/lib/api-client.ts:250-289 | the steps and status are the request plan for the token read at the start, with the mock refresh's null; a 401 in the browser redirects to /auth |
| Auth.MapUserTypeToMode | web/lib/auth.ts:15-21 | business_owner maps to business, advertiser to advertiser, and anything else, undefined included, to user |
| Auth.StoredUserAfterSet | web/lib/auth.ts:24-40 | in the browser, `getUser` returns the user that `setUser` stored |
| Auth.SignupRecordIsUser | web/app/signup/page.tsx:27 | the sign-up page's `{ phone, role }` object, with no id or name, is read back as a user, and `setUserMode` rewrites it with the new mode, keeping phone and role |
| Auth.StoredUserIgnoresToken | web/lib/auth.ts:29-40 | storing or removing the access token does not change the stored user |
| Auth.WithMode | web/lib/auth.ts:48-51 | the copy has the new mode and every other field equal |
| Auth.WithProfileComplete | web/lib/auth.ts:84-87 | the copy's flag for the given kind is set, the other kind's flag and every other field are unchanged |
| Auth.ProfileComplete | web/lib/auth.ts:92-97 | a profile is complete exactly when a user exists and its flag for the kind is exactly true |
| Auth.GetUserMode | web/lib/auth.ts:73-76 | with no stored user the mode is null; otherwise it is the stored user's mode |
| Auth.ProfileCompleteAfterSet | web/lib/auth.ts:78-97 | after setting a flag on a stored user, `isProfileComplete` for that kind is the new value and unchanged for the other kind |
| Auth.SetUser | web/lib/auth.ts:24-27 | in the browser the user entry is overwritten; outside it nothing changes |
| Auth.SetUserMode | web/lib/auth.ts:42-54 | with no user stored nothing changes; otherwise the stored user gets the new mode and keeps every other field, and `getUserMode` then returns the new mode |
| Auth.SetProfileComplete | web/lib/auth.ts:78-90 | with no user stored nothing changes; otherwise only the flag for the kind changes, and `isProfileComplete` for it then returns the new value |
| Auth.IsAuthenticated | web/lib/auth.ts:69-71 | holds exactly when a user is stored and a token is cached or stored |
| Auth.Logout | web/lib/auth.ts:60-67 | the token cache is cleared; in the browser the token and the user entries are removed and the client goes to /auth |
| JsBuiltins.ParseIntNaN | web/app/page.tsx:38 | `parseInt` gives NaN exactly when no digit follows the leading whitespace and optional sign |
| JsBuiltins.ParseIntLetterFirst | web/app/page.tsx:59 | a string that starts with a letter parses to NaN |
| JsBuiltins.ParseIntOfDigits | web/app/page.tsx:38 | a string of decimal digits parses to its value |
| JsBuiltins.ParseIntOfIntToString | web/components/reputation-badge.tsx:108 | every integer's decimal text parses back to it |
| JsBuiltins.ToLowerCase | web/app/businesses/page.tsx:69-70 | same length, each character folded on its own |
| JsBuiltins.Includes | web/app/businesses/page.tsx:69-70 | holds exactly when the substring occurs at some position |
| JsBuiltins.Trim | web/hooks/use-interaction-tracking.ts:116 | the trimmed text is empty exactly when every character is ECMAScript white space or a line terminator |
| JsBuiltins.TrimKeepsMiddle | web/hooks/use-interaction-tracking.ts:116 | the trimmed text is a prefix of the text after the leading white space, and everything dropped after it is white space |
| JsBuiltins.TrimEndsOnText | web/hooks/use-interaction-tracking.ts:116 | non-empty trimmed text neither starts nor ends with white space |
| JsBuiltins.NoBreakSpaceTrimmed | web/hooks/use-interaction-tracking.ts:116 | a query made of one no-break space trims to the empty string |
| JsBuiltins.WideSpacesTrimmed | web/hooks/use-interaction-tracking.ts:116 | an ideographic space before the text and a byte order mark after it are both trimmed away |
| JsBuiltins.NoBreakSpaceBeforeNumber | web/app/page.tsx:38 | `parseInt` skips a leading no-break space and reads the digits after it |
| Sorting.SortByPermutes | web/app/businesses/page.tsx:74-78 | sorting gives a permutation of its input |
| Sorting.SortBySorted | web/app/page.tsx:53 | with a total, transitive comparator the output is in order |
| Sorting.SortedUnique | web/app/page.tsx:37 | two sorted arrangements of the same values are equal when the comparator ranks no two different values equal |
| Sorting.SortByAllEqual | web/app/businesses/page.tsx:77 | a comparator that ranks everything equal keeps the input order |
| RandomStrings.CharsetIsAlphanumeric | auth/internal/handlers/utils.go:33 | the charset has 62 characters, all ASCII letters or digits, pairwise distinct |
| RandomStrings.GenerateRandomString | auth/internal/handlers/utils.go:32-40 | the output has exactly the requested length, and character i is `charset[b[i] mod 62]`, so every character is alphanumeric |
| RandomStrings.RandomCSRFToken | auth/internal/handlers/utils.go:17-19 | a CSRF token has 24 alphanumeric characters |
| RandomStrings.SessionId | auth/internal/handlers/auth_handler.go:73 | a session id has 32 alphanumeric characters |
| RandomStrings.UrlCharValue | auth/internal/handlers/utils.go:24 | each base64url digit decodes back to its value |
| RandomStrings.RawUrlEncode | auth/internal/handlers/utils.go:24 | every output character is from the base64url alphabet |
| RandomStrings.RawUrlEncodeLength | auth/internal/handlers/utils.go:24 | unpadded base64url of n bytes has (4n + 2) / 3 characters |
| RandomStrings.RawUrlRoundTrip | auth/internal/handlers/utils.go:24 | decoding the encoding gives back the bytes |
| RandomStrings.CodeVerifier | auth/internal/handlers/utils.go:21-25 | the verifier of 32 random bytes has 43 unreserved characters, within RFC 7636's 43..128 bound, and decodes back to those bytes |

## Left out

- The score formula. The bodies of `update_from_business` and `calculate_score` are not part of this model. The score is the parameter `scoreOf` of the store; it has no weights, bounds or rounding of its own.
- ReputationStore.Recompute: it is taken to be the recount that `resource/test_api_endpoints.py:157-167` performs. It rebuilds clicks, views and searches and rescores, and it keeps share count, review count and average rating, whose aggregation is not visible.
- `last_updated` is never set by the model, because the code that would set it is not part of this model.
- Field list. `resource/reputation/models.py:4-9` declares only some of the fields the serializer reads, so the row type follows the serializer.
- Business and caller. This model has no Business model: a business is its name and an integer owner id. The caller is `Anonymous` when the request carries no bearer header (`resource/users/authentication.py:18-25`); the permission class `resource/users/permission.py:5-6` returns `request.user`, which is truthy for `AnonymousUser` too, so anonymous requests reach the views. Only a rejected token (`AuthenticationFailed`, `resource/users/authentication.py:27-49`) is refused before the 404 lookup; that is the absent caller.
- ReputationStore.Store.BulkUpdate: the model gives a signed-in caller an `isStaff` flag. The `User` of `resource/users/models.py:4-7` declares no `is_staff` field, so the `is_staff` test at `resource/reputation/views.py:113` would raise for every signed-in caller as that file stands; the same file also lacks fields that `resource/users/authentication.py:68-76` writes, so the model follows the view's evident intent instead.
- Attribution of searches. Searches are credited to the business of their `clicked_ad`, as the code does (`resource/test_api_endpoints.py:162`); a search that records only a clicked business is not counted.
- ReputationStore.Store.BulkUpdate: the businesses are visited in whatever order a set is drawn from, which stands for the queryset's unspecified order; the contract says nothing about order.
- ReputationStore.Store.RecountCounters: a missing row returns `false` where `objects.get` would raise.
- The concurrent first-access race in `get_or_create` (two requests both creating a row) is left out: the model is sequential, and the one-row invariant holds for sequential calls only.
- Floating point: `average_rating` is a `real`, and latitude and longitude conversion to tiles, drag-to-pan and coordinate averaging are left out; tile coordinates are integer inputs.
- ServiceMap.BuildTiles: the grid is 5 by 5 because `Math.floor(4 / 2)` is 2 on both sides of zero, although `tilesX` and `tilesY` are 4; the model follows the loops.
- HomePage.MockToBusiness: the `owner: 1` and `created_at: new Date().toISOString()` that the businesses fallback also sets (`web/app/page.tsx:64-65`) are not modelled, because the page's `Business` record here has no owner or creation date and the date comes from the clock.
- `localeCompare` is an abstract comparator, and `toLowerCase` folds ASCII letters only.
- JsBuiltins.ParseIntNaN: `parseInt` is modelled for an optional sign followed by decimal digits; hexadecimal prefixes, radix arguments and numbers beyond the safe integer range are left out.
- JSON. A stored object is a `User` whatever keys it has, so a record without `id` or `name`, such as the `{ phone, role }` that `web/app/signup/page.tsx:27` writes, is a user to `getUser`, `isAuthenticated`, `setUserMode` and `setProfileComplete`. Keys beyond the `User` interface and that `role`, and values of another JSON type under those keys, are not modelled. Stored text that is not the JSON of an object reads as no user: that is `getUser` when `JSON.parse` throws or yields `null`, but for other primitives and arrays (`"5"`, `"true"`, `"[1]"`) the source returns a non-null value that `isAuthenticated` counts and `setUserMode` spreads. No writer in the program (`web/lib/auth.ts:26`, `:53`, `:89`, `web/app/signup/page.tsx:27`) stores such text under `"user"`.
- Request interleaving. Each tracking call is its issue step plus a later `Settle`; the order in which requests settle is the caller's choice, which is how overlapping calls are expressed. Thrown errors other than a rejected request are left out.
- Timers. `setTimeout` delays, `storage` and `userModeChanged` listeners and React scheduling are left out; only the pending timer slot and the stored values are modelled. Each `useTrackAdView` instance has its own tracker.
- Non-mock branches. The client is modelled with `ENABLE_MOCK_MODE` on, as the source sets it: the network branches of `authenticate`, `refreshToken`, `updateUserType` and `logout` are left out, and a refresh in `apiRequest` therefore returns null. `RequestPlanRetriesOnce` also covers a refresh that returns a token.
- Randomness, the clock and the browser check are parameters: `crypto/rand` bytes, `Date.now()` and `typeof window !== "undefined"`.
- `FaydaUniqueCodeChallenge` (SHA-256), the OAuth handlers, JWT signing and the Redis session store are left out, since they are library calls and network plumbing.
- Django CRUD views, URL configuration, pagination, Next.js proxy routes and the fetch wrappers are left out, as framework plumbing.

# BrokerForce listings core, modelled in Dafny

This project models the logic of the BrokerForce real-estate front end with its I/O taken out,
and proves properties about it:

- **Normalizer**: `transformProperty` and `mapPropertyType` in `src/services/propertyService.ts`.
  They map a loosely shaped listings-API record onto the canonical `Property` the pages show:
  - a case-insensitive scan of key names for bed, bath and area values;
  - ordered `||` fallbacks over well-known field names;
  - the weighted bath count from full, half and three-quarter parts;
  - placeholder measurements derived from a character-code sum of the id;
  - default strings and images;
  - the four-way home-type classification.
- **ListingsClient** and **QueryParams**: `buildQueryParams`, response-envelope unwrapping, the
  credential loops of `getProperties` and `getPropertyById`, and the text filter of
  `searchProperties`. The network is a sequence of per-attempt outcomes, one per demo credential.
- **Favorites**: the `LikeButton` heart toggle over the liked list in local storage.
- **Auth**: `checkAuth`, `logout`, `isAuthenticated` and the retry-with-backoff machine that runs
  after an OAuth redirect, in `src/hooks/useAuth.tsx`. Timers are the delays they are started with.
- **SearchBar**: filter state, its updates, the home-type checkboxes, submit and the price label.
- **LandingPage**: carousel index arithmetic, the slide count, the sort menu and the
  featured-listing load in `src/pages/Index.tsx`.
- **QueryKeys**: the `propertyKeys` factory and the query hooks of `src/hooks/useProperties.ts`.

JavaScript behaviour the code relies on is written out in **JsValues**:
- truthiness, and `a || b || c` as "first truthy operand, else the last";
- property reads on parsed JSON, and `Object.keys` order;
- `===` between parsed values;
- ASCII lower-casing and `includes`.

JSON numbers are Dafny `real`s rather than IEEE doubles (see "## Left out"). Every place where the
source can throw a `TypeError` is an explicit error value:
- `Result` with `TransformError` for the normalizer;
- `Option` results for the search predicate.

Three consequences of the code are worth stating, because the field names and comments
suggest otherwise:
- **An explicit `bedrooms` field is not authoritative.** The first key in scan order that
  names bedrooms wins, so `{bedroomsTotal: 4, bedrooms: 3}` gives 4. This is
  `Normalizer.ExplicitBedroomsNotAuthoritative`. `Normalizer.ExplicitBedroomsWin` gives the
  condition under which a positive `bedrooms` number is the bed count.
- **The placeholder area range is [1600, 3599].** The comment at
  `src/services/propertyService.ts:211` says 1200-3200. The formula there,
  400·beds + h mod 800 + 800 with beds in [2, 5], gives [1600, 3599].
- **"No zeros" holds only jointly.** A normalized listing never has beds, baths and area all
  zero (`Normalizer.NeverAllZero`). Any one of them can still be zero.

The normalizer takes a `BathReading`:
- `AsWritten` is the source's bath count (`Normalizer.Baths`). The listings client uses it.
- `Corrected` is the count of the finding below (`Normalizer.CorrectedBaths`).
The two readings differ in the bath count alone (`Normalizer.ReadingsDifferOnlyInBaths`).

## Model

| member | source | states |
|---|---|---|
| `Normalizer.MapPropertyType` | src/services/propertyService.ts:287-301 | condo iff the lower-cased type mentions "condo"; townhouse iff not condo and it mentions "townhouse" or "town home"; apartment iff neither and it mentions "apartment" or "multi-family"; no type or an empty one is a house |
| `Normalizer.CondominiumIsCondo` | src/services/propertyService.ts:294 | a type mentioning "condominium" already mentions "condo", so the second test of the condo branch never decides |
| `Normalizer.MapPropertyTypeIgnoresCase` | src/services/propertyService.ts:292 | classifying the lower-cased type gives the same category as the original |
| `Normalizer.MapPropertyTypeExamples` | src/services/propertyService.ts:290-300 | "Condominium" is a condo, "Town Home" a townhouse, "Multi-Family" an apartment, and a missing or empty type a house |
| `Normalizer.HouseIsHouse` | src/services/propertyService.ts:266-271 | the "house" default type classifies as a house |
| `Normalizer.Baths` | src/services/propertyService.ts:136-200 | the bath count as written is truthy or 0 (the fallback to 0), and a positive number whenever some scanned key names baths and holds a positive number |
| `Normalizer.CorrectedBaths` | src/services/propertyService.ts:136-200 | the corrected count is truthy or 0; a positive number when a bath total is found; full + ½·half + ¾·three-quarter when no total is found and some nested part is positive; otherwise the count as written |
| `Normalizer.Scan` | src/services/propertyService.ts:95-153 | the scanned count is non-negative; it is 0 iff no key, top-level then nested, both names the category and holds a positive number; otherwise it is the value of the first such key |
| `Normalizer.ScanFirstHit` | src/services/propertyService.ts:126-133 | the scan's first hit gives a positive count read from that key |
| `Normalizer.ExplicitBedroomsWin` | src/services/propertyService.ts:99-133 | a positive top-level `bedrooms` number is the bed count when no other scanned key names bedrooms |
| `Normalizer.ExplicitBedroomsNotAuthoritative` | src/services/propertyService.ts:126-133 | `{bedroomsTotal: 4, bedrooms: 3}` has 4 beds: an earlier bedroom key overrides an explicit `bedrooms` |
| `Normalizer.FallbacksOnlyAfterEmptyScan` | src/services/propertyService.ts:155-200 | a scan hit fixes beds, area and the source's bath count; the named aliases, and for baths the weighting before them, apply only when no key of the category hits; a total found by the corrected scan is the corrected count |
| `Normalizer.PartRead` | src/services/propertyService.ts:169-172 | a bath part count reads as its number, or 0 when the details object lacks it |
| `Normalizer.WeightedParts` | src/services/propertyService.ts:167-175 | when the corrected scan finds no bath total and the non-negative nested parts are not all zero, the corrected count is full + ½·half + ¾·three-quarter, a missing part counting 0 |
| `Normalizer.WeightedBaths` | src/services/propertyService.ts:168-175 | for any record in which the corrected scan finds no bath total and whose nested parts are non-negative and not all zero, the corrected bath count is the weighted total, that is, 4·full + 2·half + 3·three-quarter quarter baths |
| `Normalizer.PartsReadings` | src/services/propertyService.ts:95-98 | the scanned keys of `{property: {bathsFull, bathsHalf, bathsThreeQuarter}}` are "property" and the three part names, and each part reads as its number |
| `Normalizer.PropertyNotBath` | src/services/propertyService.ts:102-104 | the key "property" names no bath |
| `Normalizer.PartsAsWritten` | src/services/propertyService.ts:136-143 | as written, the bath scan of such a record stops at a positive `bathsFull` and returns the full count |
| `Normalizer.PartsCorrectedScan` | src/services/propertyService.ts:167-175 | the corrected scan, which skips the part counts, finds no bath total in such a record |
| `Normalizer.PartsWeighted` | src/services/propertyService.ts:167-175 | the corrected bath count of such a record is full + ½·half + ¾·three-quarter whenever the non-negative parts are not all zero |
| `Normalizer.TopLevelPartReadings` | src/services/propertyService.ts:84-98 | in `{id, property: {}, bathsFull}` the scanned keys are the three top-level ones and the details object holds no part count |
| `Normalizer.TopLevelPartCount` | src/services/propertyService.ts:136-175 | a positive top-level `bathsFull` is the bath count as written and as corrected |
| `Normalizer.TopLevelPartMeasured` | src/services/propertyService.ts:202-211 | such a record is measured without placeholders under either bath reading, so its numeric id never reaches the placeholder code |
| `Normalizer.BathsAsWrittenDropsPartialBaths` | src/services/propertyService.ts:136-175 | for any positive full count with some half or three-quarter baths, the code as written gives the full count alone, which differs from the weighted total |
| `Normalizer.SyntheticDimensions` | src/services/propertyService.ts:207-211 | placeholder beds are the character-code sum mod 4 plus 2, so they lie in [2, 5]; baths is the least integer ≥ 0.75·beds; area lies in [1600, 3599] and exceeds 400·beds + 800 by the character-code sum mod 800 |
| `Normalizer.Measure` | src/services/propertyService.ts:202-211 | with either bath reading, measuring throws exactly when placeholders are needed and the id is truthy but not a string (`split` on a non-string) |
| `Normalizer.TransformMeasurements` | src/services/propertyService.ts:202-232 | with either bath reading, placeholders are used iff beds, baths and area are all 0 after the fallbacks, and then lie in [2, 5] beds and [1600, 3599] sq ft; otherwise the found beds, baths and area are kept |
| `Normalizer.NeverAllZero` | src/services/propertyService.ts:203-211 | a normalized listing, with either bath reading, never has beds, baths and area all 0 |
| `Normalizer.SyntheticDependsOnlyOnId` | src/services/propertyService.ts:204-211 | two records needing placeholders with the same id get the same beds, baths and area, whatever else they hold or when they are normalized |
| `Normalizer.Transform` | src/services/propertyService.ts:32-284 | normalization, with either bath reading, fails exactly on a `null` record, on a non-string id that placeholders need, or on a truthy non-string property type (`toLowerCase` on it throws) |
| `Normalizer.TransformFields` | src/services/propertyService.ts:250-283 | id, price, address, city, state, ZIP, images, year built, description and features are the `||` chains over the source's field names with its literal defaults; the home type classifies the first truthy of propertyType, type, style, else "house" |
| `Normalizer.ReadingsDifferOnlyInBaths` | src/services/propertyService.ts:136-175 | a record both readings normalize without placeholders gets the same listing except `baths`, and the same listing when the two bath counts agree |
| `Normalizer.ImagesNeverEmpty` | src/services/propertyService.ts:242-265 | the image list is never empty and the primary image is always truthy; with no photos, images, or media both are the default image |
| `Normalizer.FallbackDefaults` | src/services/propertyService.ts:234-283 | with every alias falsy, price is 0, year built 2020, the description and features are the stock ones, and the type is a house |
| `Normalizer.EmptyRecordReadings` | src/services/propertyService.ts:66-80 | an empty record gets the four "not available" address strings and an id made from the clock |
| `Normalizer.EmptyNeedsSynthetic` | src/services/propertyService.ts:155-203 | an empty record has no beds, baths or area of its own |
| `Normalizer.EmptyRecordMeasurements` | src/services/propertyService.ts:205-211 | an empty record gets the placeholders of the empty id: 2 beds, 2 baths, 1600 sq ft |
| `Normalizer.PlaceholderMeasurements` | src/services/propertyService.ts:202-211 | a record that needs placeholders and has a string id gets exactly the placeholders of that id |
| `Normalizer.EmptyRecord` | src/services/propertyService.ts:250-283 | the complete listing an empty record normalizes to |
| `JsValues.FirstTruthy` | src/services/propertyService.ts:235-240 | a JavaScript or-chain `a or b or … or last` yields the first truthy operand, or the last one when all are falsy; the result is truthy or the last operand |
| `JsValues.ToLower` | src/services/propertyService.ts:292 | lower-casing keeps the length and maps each character through ASCII lower-casing |
| `JsValues.ToLowerIdempotent` | src/services/propertyService.ts:593 | lower-casing an already lower-cased string changes nothing |
| `JsValues.NatToString` | src/services/propertyService.ts:255 | the clock reading in the fallback id is a non-empty run of decimal digits |
| `Sequences.FindFirst` | src/services/propertyService.ts:126-133 | a `for … of` loop with `break` finds the first index satisfying the test, and none exactly when no element does |
| `Sequences.Filter` | src/services/propertyService.ts:592 | `filter` keeps the passing elements in order, each as often as in its input, and drops the rest |
| `Sequences.FilterAllPass` | src/components/LikeButton.tsx:32 | filtering a list whose elements all pass returns it unchanged |
| `Sequences.FilterAppend` | src/components/LikeButton.tsx:32 | filtering distributes over concatenation |
| `Sequences.RemoveAll` | src/components/SearchBar.tsx:246 | `filter(t => t !== x)` leaves no `x`, keeps the order, and keeps every other element as often as it occurs |
| `Sequences.RemoveAllAppendAbsent` | src/components/SearchBar.tsx:243-246 | appending an absent element and filtering it out again restores the list |
| `Sequences.ApplySwaps` | src/pages/Index.tsx:35 | the reordered list is a permutation of the original (same length, same multiset) |
| `QueryParams.BuildQueryParams` | src/services/propertyService.ts:304-326 | at most one pair per known parameter name, and every pair carries a truthy value: 0 and "" are never sent |
| `QueryParams.EmitDistinct` | src/services/propertyService.ts:307-323 | appending at most one pair per name, from a list of distinct names, never repeats a name in the query |
| `QueryParams.LookupBuilt` | src/services/propertyService.ts:307-323 | each parameter appears in the built query exactly when its field is truthy, so 0 and "" are omitted |
| `QueryParams.BuildQueryParamsRoundTrip` | src/services/propertyService.ts:304-326 | reading back the built query gives exactly the truthy parameters, with `zipCode` travelling as `postalCode` |
| `QueryParams.BuildQueryParamsOrder` | src/services/propertyService.ts:307-323 | the pairs come out in the fixed order city, state, postalCode, minPrice, maxPrice, minBeds, maxBeds, minBaths, maxBaths, propertyType, limit, page |
| `QueryParams.OnlyLimit` | src/services/propertyService.ts:322 | parameters giving only a non-zero limit build the single pair `limit=n` |
| `ListingsClient.Unwrap` | src/services/propertyService.ts:370-396 | the listing array is the body when it is an array, else an object's `properties` array, else its `data` array, else empty, also for a string, number or boolean body; only a `null` body throws |
| `ListingsClient.UnwrapEnvelopes` | src/services/propertyService.ts:370-390 | a bare array, `{properties: [...]}` and `{data: [...]}` all unwrap to the listing they carry, and `properties` wins over `data` |
| `ListingsClient.TransformAll` | src/services/propertyService.ts:401 | mapping the normalizer succeeds iff every record normalizes, giving the records' listings in order; otherwise it throws the first record's error |
| `ListingsClient.ListingOf` | src/services/propertyService.ts:398-457 | a usable response gives its normalized listings, or `[]` as soon as a record fails to normalize |
| `ListingsClient.ListFrom` | src/services/propertyService.ts:340-469 | the loop returns the listing of the first response with a non-empty array, and `[]` when no attempt gives one |
| `ListingsClient.GetProperties` | src/services/propertyService.ts:331-501 | over the three demo credentials: the first usable response decides and the result is `[]` when none is usable; it never throws |
| `ListingsClient.NonEmptyListing` | src/services/propertyService.ts:398-449 | a non-empty result is the complete normalization of the first usable response |
| `ListingsClient.FindFrom` | src/services/propertyService.ts:510-562 | the by-id loop returns a listing iff some body normalizes, and then that of the first one; a body that fails to normalize moves on |
| `ListingsClient.GetPropertyById` | src/services/propertyService.ts:504-568 | `getPropertyById` over the three demo credentials returns the first body that normalizes, else `null` |
| `ListingsClient.NullBodyNotFound` | src/services/propertyService.ts:540-553 | `null` bodies on every attempt give no listing |
| `ListingsClient.LowerIncludes` | src/services/propertyService.ts:595 | the lower-cased substring test throws exactly on a non-string and otherwise answers `includes` |
| `ListingsClient.Includes` | src/services/propertyService.ts:598 | `zipCode.includes(query)` is a substring test on strings and strict membership on arrays, and throws otherwise |
| `ListingsClient.OrElse` | src/services/propertyService.ts:594-599 | a short-circuit or of tests that may throw: the second test runs only when the first answers false |
| `ListingsClient.Matches` | src/services/propertyService.ts:592-613 | in both directions, a listing matches iff the lower-cased query is in its lower-cased address, city, state or description, or the raw query is in its ZIP, with each test reached only after the earlier ones ran and answered false; the test throws iff the first test to see a non-string (a non-string, non-array ZIP) is reached; a listing whose searched fields are all strings never throws and matches iff some field contains the query |
| `ListingsClient.SearchableNeverThrows` | src/services/propertyService.ts:592-613 | filtering listings whose searched fields are all strings never throws and keeps exactly the listings with a field that contains the query |
| `ListingsClient.FilterMatches` | src/services/propertyService.ts:592-613 | the filter throws iff some test throws; otherwise it keeps the matching listings in order, each as often as in its input, and drops the rest |
| `ListingsClient.SearchProperties` | src/services/propertyService.ts:571-637 | search throws iff a test throws on some listed listing; otherwise its results are an order-preserving subsequence of the listing holding every matching listing, each as often as listed, and nothing else |
| `ListingsClient.SearchRequestQuery` | src/services/propertyService.ts:576 | the search's request URL carries the single parameter `limit=100` |
| `ListingsClient.SearchOfNothing` | src/services/propertyService.ts:622-630 | when no attempt gives a usable response, search returns `[]` |
| `Favorites.AnyHasId` | src/components/LikeButton.tsx:24 | `some(house => house.id === id)` holds iff some stored entry has a strictly equal id |
| `Favorites.Mount` | src/components/LikeButton.tsx:22-25 | the button starts liked iff the stored list holds its listing's id, with no event dispatched |
| `Favorites.WithoutId` | src/components/LikeButton.tsx:32 | removal keeps, in order, the entries whose id differs, each as often as stored, and drops the rest |
| `Favorites.ToggleLike` | src/components/LikeButton.tsx:27-47 | liked: every entry with the id is removed and the button unliked; unliked with the id absent: the listing is appended and the button liked; unliked with the id present: nothing changes; every click dispatches one event |
| `Favorites.WithoutIdUnique` | src/components/LikeButton.tsx:32 | removal keeps a list without repeated ids free of them |
| `Favorites.ToggleKeepsIdsUnique` | src/components/LikeButton.tsx:30-42 | a toggle keeps stored ids unique |
| `Favorites.ToggleKeepsConsistent` | src/components/LikeButton.tsx:27-43 | for a primitive id, a toggle keeps the button liked exactly when its id is stored |
| `Favorites.DoubleToggleRestores` | src/components/LikeButton.tsx:30-42 | liking and unliking a listing whose id is absent restores the stored list exactly, after two events |
| `Auth.CheckAuth` | src/hooks/useAuth.tsx:29-55 | the check always ends not loading; signed in (`isAuthenticated`, `!!user`) iff the service answered with a user; a throw gives no user and "Failed to check authentication status" |
| `Auth.Logout` | src/hooks/useAuth.tsx:61-76 | success clears the user and the error; an unsuccessful answer shows its message and keeps the user; a throw shows "Logout failed"; loading is untouched |
| `Auth.Pow2` | src/hooks/useAuth.tsx:115 | the doubling factor is at least 1 and exceeds the number of doublings |
| `Auth.RetryDelay` | src/hooks/useAuth.tsx:115 | every retry waits at least the initial 300 ms |
| `Auth.RetryDelayDoubles` | src/hooks/useAuth.tsx:113-118 | each further failure doubles the wait |
| `Auth.StartRetry` | src/hooks/useAuth.tsx:139-142 | the first attempt is scheduled after 300 ms with no failures counted |
| `Auth.Attempt` | src/hooks/useAuth.tsx:95-137 | a user ends the machine signed in and not loading; otherwise the failure is counted and the next attempt is scheduled after 300·2^(k-1) ms, or after the fifth failure the machine stops signed out and not loading |
| `Auth.AttemptKeepsInvariant` | src/hooks/useAuth.tsx:95-137 | every attempt keeps the machine's invariant: at most five failures, a pending delay on the schedule, and not loading once stopped |
| `Auth.ThrowIsNoUser` | src/hooks/useAuth.tsx:124-136 | a thrown check advances the counter and schedule exactly like an answer without a user |
| `Auth.Run` | src/hooks/useAuth.tsx:95-142 | running the machine keeps its invariant, never counts more than five failures, and does nothing once stopped |
| `Auth.SuccessIsTerminal` | src/hooks/useAuth.tsx:98-108 | after a user is found the user is set, loading ends and no further attempt runs |
| `Auth.FailingRun` | src/hooks/useAuth.tsx:111-135 | from k failures, failing attempts schedule the rest of the doubling delays and the machine stops signed out after the fifth failure |
| `Auth.RedirectAllFail` | src/hooks/useAuth.tsx:111-142 | when every check fails, the attempts start after 300, 300, 600, 1200 and 2400 ms, and the user ends signed out and not loading |
| `Auth.Attempts` | src/hooks/useAuth.tsx:95-137 | a run makes no more attempts than there are outcomes, and none once stopped |
| `Auth.AtMostFiveAttempts` | src/hooks/useAuth.tsx:92-137 | a run never makes more than five attempts in all |
| `Auth.OnMount` | src/hooks/useAuth.tsx:84-146 | the retry machine starts iff the `auth` parameter is "success"; otherwise a single check runs |
| `SearchBar.InitialFilters` | src/components/SearchBar.tsx:39-44 | the given filters, or the defaults when none are given |
| `SearchBar.ResetFilters` | src/components/SearchBar.tsx:59-66 | reset gives price [200000, 1000000], beds [1, 5], baths [1, 4] and all four home types, the same state as a bar started without filters |
| `SearchBar.ApplyChange` | src/components/SearchBar.tsx:55-57 | a change sets the field its key names to the new value |
| `SearchBar.ChangeTouchesOnlyItsKey` | src/components/SearchBar.tsx:55-57 | a change leaves the other three fields as they were |
| `SearchBar.Check` | src/components/SearchBar.tsx:243-244 | ticking appends the type at the end and touches no slider |
| `SearchBar.Uncheck` | src/components/SearchBar.tsx:245-246 | unticking removes every occurrence of the type, keeps every other type in order and as often as before, and touches no slider |
| `SearchBar.CheckUncheckRestores` | src/components/SearchBar.tsx:242-247 | ticking an unticked type and unticking it again restores the filters exactly |
| `SearchBar.HandleSubmit` | src/components/SearchBar.tsx:46-53 | submit always passes the query, and passes the filters iff the bar shows them |
| `SearchBar.SubmitDeterminesInput` | src/components/SearchBar.tsx:46-53 | two submits make the same call iff they have the same query and, when the filters are shown, the same filters |
| `SearchBar.FormatPrice` | src/components/SearchBar.tsx:68-73 | the millions form iff the value is at least 1,000,000, else the thousands form; scaling the amount back gives the value |
| `LandingPage.NextSlide` | src/pages/Index.tsx:44-46 | next advances by one and wraps from the last slide to 0 |
| `LandingPage.PrevSlide` | src/pages/Index.tsx:40-42 | previous steps back by one and wraps from 0 to the last slide |
| `LandingPage.SlidesStayInRange` | src/pages/Index.tsx:40-46 | on a non-empty carousel both buttons keep the index in range, and each undoes the other |
| `LandingPage.NextRotates` | src/pages/Index.tsx:44-46 | k presses of next move k places modulo the slide count |
| `LandingPage.SlidesPerPage` | src/pages/Index.tsx:79-90 | 1 listing per slide below 640 px, 3 from 1024 px, otherwise 2 |
| `LandingPage.CeilDiv` | src/pages/Index.tsx:83 | `Math.ceil(n / k)`: the least count of k-slots that holds n |
| `LandingPage.TotalSlides` | src/pages/Index.tsx:79-90 | enough slides for every listing, none left empty, and none at all only for no listings |
| `LandingPage.HandleSortChange` | src/pages/Index.tsx:29-38 | the choice is recorded and the menu closed; only "random" reorders the listings, and only as a permutation |
| `LandingPage.FetchFeatured` | src/pages/Index.tsx:49-75 | the listing if it returns, else the first 12 Houston search results, else the failure message with no listings; loading ends in every case |
| `LandingPage.FallbackUnreachable` | src/pages/Index.tsx:54-68 | the listing call never throws, so the page always shows its result and never the fallback or the error |
| `LandingPage.FeaturedRequestQuery` | src/pages/Index.tsx:56 | the featured listings' request URL carries the single parameter `limit=12` |
| `QueryKeys.AllCoversEveryKey` | src/hooks/useProperties.ts:7-14 | every key the factory builds starts with `all`, so invalidating `all` reaches it |
| `QueryKeys.KeysDisjoint` | src/hooks/useProperties.ts:9-13 | list, detail and search keys differ in their second element and never reach one another |
| `QueryKeys.ListsCoversLists` | src/hooks/useProperties.ts:9-10 | invalidating `lists()` reaches every list key and no detail or search key |
| `QueryKeys.KeysInjective` | src/hooks/useProperties.ts:10-13 | different filters, ids or queries give different keys |
| `QueryKeys.KeyRoundTrip` | src/hooks/useProperties.ts:7-14 | the list, detail and search keys read back as the service call they stand for |
| `QueryKeys.UseProperties` | src/hooks/useProperties.ts:17-24 | always enabled; fresh for 5 minutes and kept for 10 |
| `QueryKeys.UseProperty` | src/hooks/useProperties.ts:27-35 | enabled iff the id is non-empty; fresh for 5 minutes and kept for 10 |
| `QueryKeys.UsePropertySearch` | src/hooks/useProperties.ts:38-46 | enabled iff the query is non-empty; fresh for 2 minutes and kept for 5 |
| `QueryKeys.PrefetchProperties` | src/hooks/useProperties.ts:49-59 | prefetch uses the same key, call and freshness as `useProperties` for the same filters |
| `QueryKeys.HookKeyDecodes` | src/hooks/useProperties.ts:17-46 | every hook's key reads back as the service call the hook makes |
| `QueryKeys.KeyDeterminesFetch` | src/hooks/useProperties.ts:17-46 | two hooks that share a key make the same call, so a cached result never answers a different query |
| `QueryKeys.RefreshCoversHooks` | src/hooks/useProperties.ts:62-67 | refreshing, and a successful mutation, invalidate every query the hooks build |

## Left out

- Network I/O is not modelled. `fetch`, `response.json()`, the Basic-Auth header and `btoa` are left out. Each attempt is a `FetchOutcome`: it threw, it had a non-2xx status, or it returned a parsed body.
- The diagnostic request after a failed credential loop and `testSimplyRETS` are left out. They only log and never change a result.
- Logging is left out: every `console.*` call and the `Math.random()` gates around them.
- `Date.now()` is a parameter `now`. `getProperties` reads it once per listing, not once per record as the source does.
- Lower-casing covers the ASCII letters only. `toLowerCase` on other scripts is not modelled.
- `Normalizer.CharCodeSum` adds Unicode code points. The source adds UTF-16 code units, which differ only outside the Basic Multilingual Plane.
- `Normalizer.PartNumber`: a bath part count that is a non-empty string, array or object counts as 0. In the source, `+` would concatenate it or give `NaN`. Only numbers and booleans are coerced.
- `Normalizer.HasPositiveLength` (and so `Normalizer.Images`, `Normalizer.ImagesNeverEmpty`): an object's `length` field counts only when it is a positive number. JavaScript's `>` would also coerce a numeric string or `true`, so `{photos: {length: "1"}}` keeps its photos in the source and gets the default image here. String-to-number coercion is not modelled.
- `JsValues.Keys`: the keys of a non-object JSON value (array indices, string positions) are treated as empty. They never contain a letter, so the scan never matches them.
- Numbers are exact reals, not IEEE doubles. The bath weighting `full + half * 0.5 + threeQuarter * 0.75` rounds in the source when a part count is not an integer (`0.1 + 0.1 * 0.5`, say), and the model computes it exactly. Floating-point rounding is not modelled.
- `JsValues.Json` admits an object with a repeated key, which `JSON.parse` never produces: it keeps the last value and `Object.keys` lists the key once. For such a value `JsValues.Lookup` reads the first entry and `JsValues.Keys` lists the key twice. Every other object behaves as parsed.
- Object keys keep their JSON order. `Object.keys` puts integer-like keys first, and the model does not reorder them.
- `JsValues.Get` returns nothing for non-objects. This ignores `length` and index reads of arrays and strings, which the field names used here never are.
- Percent-encoding by `URLSearchParams` and the `toString` spelling of numbers are left out. Parameters are name/value pairs.
- `SearchBar.FormatPrice` stops at the scaled amount. `toFixed` and `toLocaleString` rounding are floating-point formatting and are left out.
- The slide width (`width * 0.8`, 280, 320) is presentation only and is left out.
- The random shuffle is any sequence of in-range swaps. Every permutation arises that way, and the random comparator's actual order is not modelled.
- Local storage holds the liked list directly. The JSON round trip, a missing or non-array entry, and the `likedHousesChanged` listeners are left out. The event is a counter.
- `authService`, `favoritesService` and the user record are not part of this model. Their calls are outcome values, and the favourites migration is left out because its failure is swallowed.
- `setTimeout` is not modelled. A timer is the delay it would be started with, and the URL clean-up through `window.history` is left out.
- The React Query runtime (caching, `useMutation`, `prefetchQuery`) is not part of this model. A hook is the configuration it passes, with invalidation as key-prefix matching.
- `src/components/Header.tsx` (presentation) is not part of this model.
- The types in `src/types/simplyrets.ts` are not modelled beyond `PropertySearchParams`. That file has no behaviour.

## Findings

| source | as written | input that shows it | evidently intended | confidence | as-written member | corrected member |
|---|---|---|---|---|---|---|
| src/services/propertyService.ts:136-175 | the bath scan matches every key containing "bath", including the nested `bathsFull` part count, so it stops at the full count and the weighted total at line 175 is never reached for such a record | `{property: {bathsFull: 2, bathsHalf: 1, bathsThreeQuarter: 0}}` gives 2 baths | 2.5 baths: the comment at line 168 says the nested parts make up the total, and the formula at line 175 weights them as full + ½·half + ¾·three-quarter | not executed | `Normalizer.BathsAsWrittenDropsPartialBaths` | `Normalizer.PartsWeighted` |

`Normalizer.Baths` is the code as written and is what the listings client normalizes with.
`Normalizer.CorrectedBaths` is the corrected count, used by `Normalizer.Transform` only under
the `Corrected` reading. It takes a bath total from a scan that skips the three part counts,
then the weighted nested parts, and otherwise falls back to the source's count. So a record
that gives the parts in its details object reaches the weighting, and a part count outside
the details object (`Normalizer.TopLevelPartCount`) still counts as before.

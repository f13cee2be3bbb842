# bosko-scraper: a verified model of the ice-cream bot's core

bosko-scraper is a Telegram bot for the Bosko ice-cream shops. A user collects
favorite flavors and favorite shops in a multi-step dialogue. They can then ask
for a daily job that checks which favorite flavors are on offer at the favorite
shops and sends them a digest. Catalog lookups go through a time-bucketed LRU
cache. Every catalog response is checked for a JSON content type before its
body is decoded.

The model covers:

- `ResponseCheck` (response_check.dfy): the content-type guard of api/utils.py.
- `TtlCache` (ttl_cache.dfy): the `ttl_cache` decorator of bot/utils.py. This is
  a `Cache` class holding the LRU table, the recency order and the time bucket
  of each key.
- `Text` (text.dfy): `str.strip`, ASCII `str.lower`, `normalize`, substring
  search `in`, and the code-point ordering that `sorted` uses on strings.
- `Seqs` (seqs.dfy): the list idioms of the handlers. These are "append unless
  present" (`Accumulate`), merging a selection into the favorites
  (`MergeNew`), filtering, building a name dictionary (later entries win) and
  `list.index`.
- `Catalog` (catalog.dfy): shops and products, `find_shop_by_name`,
  `get_unique_cities`, `get_shops_in_city` and `cached_flavor_search`, each a
  loop proved against a specification function.
- `Matcher` (matcher.dfy): `check_favorites_availability`. Its three nested
  loops are proved to compute `Catalog.Sightings`. Lemmas about `Sightings`
  give its members exactly, show how it splits over a shop list, and show that
  a failed fetch skips only that one shop.
- `Clock` (clock.dfy): the `HH:MM` pattern, the conversion to hour and minute
  (accepted times round-trip) and the weekday names.
- `Favorites` (favorites.dfy): a user's favorite list as a mutable object.
  The daily job's data holds the same list objects, not copies.
- `Jobs` (jobs.dfy): the job data, a registry of live jobs (`run_daily`,
  `schedule_removal`) and one firing of a job.
- `Routing` (routing.dfy): the dialogue states, their numbers, the keyboard
  buttons and the keyword-driven choice handlers. Lemmas show that each button
  leads where its label says.
- `Dialogue` (dialogue.dfy): one user's `user_data` as a `Session` class with
  the handlers as methods. It also models how a message goes first to the
  add-favorite dialogue, then to the daily-updates dialogue, then to
  `/stop_daily_updates`.

The external catalog service is a parameter. `CatalogView` holds the shop
list, the product search and the per-shop product fetch. A fetch that raises
is `None`. The clock is a parameter: the current time in whole seconds.

Behaviours of the code that the model keeps:

- The daily job's data refers to the user's own favorite lists, so favorites
  added after scheduling are seen by the job.
- Cancelling a dialogue does not clear the scratch values it left in
  `user_data`.
- `select_flavors` adds any text to the selection, not only the names of the
  search results.
- In states whose handler takes any text (flavor search, shop name search,
  time entry), the Cancel button's text goes to that handler, not to the
  Cancel fallback. So a flavor search for "❌ Cancel" is attempted. Only
  `/cancel` cancels the flavor search and the time entry; in the shop-name
  search, typing `cancel` in any letter case also ends it.
- `filters.Regex("^…$")` also accepts the button text followed by one newline,
  because `$` matches before a final newline.

## Model

| member | source | states |
|---|---|---|
| ResponseCheck.CheckResponse | api/utils.py:1-4 | passes if and only if the header is exactly one of the two JSON content types; every other value, a missing header included, raises ValueError with the fixed message |
| ResponseCheck.NearMissesRejected | api/utils.py:2-4 | the comparison is exact: a missing header, a missing space, other letter case, another charset or another type are all rejected |
| TtlCache.Bucket | bot/utils.py:21 | the bucket of time t is the index k of the max_age-wide window that contains t |
| TtlCache.BucketOfWindow | bot/utils.py:21 | every time in window k lands in bucket k, so all calls within one window share a key |
| TtlCache.BucketMonotone | bot/utils.py:21 | a later time never falls in an earlier bucket |
| TtlCache.Cache.constructor | bot/utils.py:5-15 | a decorated function starts with an empty table for the given max_age and maxsize |
| TtlCache.Cache.Call | bot/utils.py:15-21 | a hit returns the stored value without invoking the function and marks the key most recently used; a miss invokes it; a raise stores nothing; a value is stored, evicting the least recently used key when the table is full, and never stored when maxsize is 0; every value returned was produced by the function for that key and bucket |
| TtlCache.Cache.Remember | bot/utils.py:15-17 | storing a fresh value keeps the table within maxsize, appends the key as most recent and evicts exactly the least recent key when full |
| TtlCache.RepeatedCall | bot/utils.py:15-21 | two calls with the same arguments in the same bucket: if the first returned a value and the table keeps entries, the second returns the same value without calling the function |
| TtlCache.NewBucketCall | bot/utils.py:16-21 | two calls with the same arguments in different buckets, the second key not yet stored: the second call forms a new key, invokes the function again and returns its result |
| Seqs.Accumulate | bot/bosko_bot.py:361-364 | appending unless present: the new element is in the list, nothing else is added, the old list is a prefix, no duplicates are introduced |
| Seqs.AccumulateIdempotent | bot/bosko_bot.py:485-490 | selecting the same entry twice leaves the selection as after once |
| Seqs.MergeNew | bot/bosko_bot.py:342-344 | merging a selection into the favorites gives exactly the union, keeps the old favorites as a prefix and introduces no duplicates |
| Seqs.MergeNewIdempotent | bot/bosko_bot.py:462-466 | committing the same selection twice adds nothing the second time |
| Seqs.MergeNewAbsorbs | bot/bosko_bot.py:463-466 | a selection whose entries are all favorites already leaves the favorites unchanged |
| Seqs.Filter | bot/bosko_bot.py:513-515 | a list comprehension with a condition keeps exactly the elements that satisfy it and is no longer than its input |
| Seqs.IndexBy | bot/bosko_bot.py:434 | a name dictionary built from a list has exactly the names of its elements as keys, each mapped to an element with that key |
| Seqs.IndexByLastWins | bot/bosko_bot.py:434 | on a key clash the later element wins: every element that is the last with its key is the one its key maps to |
| Seqs.IndexOf | bot/bosko_bot.py:781-782 | `list.index` finds the first position of the element and fails exactly when it is absent |
| Text.StripSpec | bot/bosko_bot.py:129-130 | `strip` yields a stripped string obtained by removing only whitespace from both ends |
| Text.Strip | bot/bosko_bot.py:130 | `strip` never lengthens a string and leaves it neither starting nor ending with whitespace |
| Text.Lower | bot/bosko_bot.py:130 | `lower` keeps the length of the string |
| Text.LowerSpec | bot/bosko_bot.py:130 | `lower` turns each upper-case ASCII letter into its lower-case letter, leaves no upper-case ASCII letter and changes no other character |
| Text.Normalize | bot/bosko_bot.py:129-130 | a normalized string is no longer than the input and neither starts nor ends with whitespace |
| Text.NormalizeIdempotent | bot/bosko_bot.py:129-130 | normalizing a normalized string changes nothing; this holds for the model's strip-and-lower normalize, not with unidecode's transliteration |
| Text.Contains | bot/bosko_bot.py:136 | the empty string is in every string, and no string longer than the text is in it |
| Text.LexLess | bot/bosko_bot.py:147 | nothing orders below the empty string, and the smaller string never has the larger first character |
| Text.ContainsIff | bot/bosko_bot.py:136 | the substring test holds exactly when the needle occurs at some position |
| Text.InsertSorted | bot/bosko_bot.py:147 | inserting into a strictly sorted list keeps it strictly sorted and adds exactly the new element |
| Text.StrictlySortedUnique | bot/bosko_bot.py:147 | two strictly sorted lists with the same elements are equal, so the sorted city list is determined by the set of cities |
| Catalog.MatchingShops | bot/bosko_bot.py:512-515 | the by-name search lists exactly the catalog's shops whose normalized name contains the normalized query, never more than the catalog holds |
| Catalog.ShopsInCity | bot/bosko_bot.py:150-158 | the shops of a city are exactly the catalog's shops whose normalized city equals the normalized query |
| Catalog.ByName | bot/bosko_bot.py:434 | the name dictionary has exactly the shops' names as keys, each mapped to a listed shop of that name |
| Catalog.ByNameLastWins | bot/bosko_bot.py:434 | when shop names repeat, every shop that is the last listed with its name is the one its name maps to |
| Catalog.FlavorSightings | bot/bosko_bot.py:112-114 | a product gives at most one hit per flavor, each naming that shop and product |
| Catalog.ProductSightings | bot/bosko_bot.py:111-114 | every hit for a shop's products names that shop |
| Catalog.ShopSightings | bot/bosko_bot.py:108-116 | a shop whose fetch fails gives no hit, and every hit names that shop |
| Catalog.Sightings | bot/bosko_bot.py:106-116 | every hit names one of the given shops |
| Catalog.FindShopByName | bot/bosko_bot.py:133-138 | returns the first shop whose normalized name contains the normalized query, or nothing when no shop matches |
| Catalog.FirstMatchIsFirstListed | bot/bosko_bot.py:133-138 | the shop found by name is the first entry of the by-name search list |
| Catalog.GetUniqueCities | bot/bosko_bot.py:141-147 | the city list is strictly sorted and holds exactly the cities of the shops that have one |
| Catalog.SortStrings | bot/bosko_bot.py:147 | sorting a set gives a strictly sorted list with exactly its elements |
| Catalog.GetShopsInCity | bot/bosko_bot.py:150-158 | the loop collects exactly the shops of the city, in catalog order |
| Catalog.CachedFlavorSearch | bot/bosko_bot.py:62-76 | the flavor search gives the same hits, in the same order, as the availability check with the single flavor query over the whole catalog, skipping shops whose fetch fails |
| Catalog.SearchShopProducts | bot/bosko_bot.py:70-72 | the hits of one shop are its matching products, in product order |
| Catalog.SingleFlavorSightings | bot/bosko_bot.py:71-72 | with one flavor, a product gives one hit if it matches and none otherwise |
| Matcher.CheckFavoritesAvailability | bot/bosko_bot.py:90-126 | a digest is sent exactly when both favorite lists are non-empty and some hit exists, and it holds every hit ordered by shop, product, flavor |
| Matcher.MatchShopProducts | bot/bosko_bot.py:111-114 | the hits of one shop's product list, product by product |
| Matcher.MatchProduct | bot/bosko_bot.py:112-114 | the hits of one product, one per matching flavor in flavor order |
| Matcher.NoFlavorsNoSightings | bot/bosko_bot.py:102-104 | with no favorite flavors there is never a hit, so the empty-list guard never suppresses a digest |
| Matcher.NoFlavorsNoProductSightings | bot/bosko_bot.py:111-114 | no flavors give no hits for any product list |
| Matcher.NoFetchNoSightings | bot/bosko_bot.py:108-118 | when no shop's products can be fetched there is no hit, so no digest is sent |
| Matcher.SightingsSnoc | bot/bosko_bot.py:108-116 | one more shop at the end adds exactly its hits at the end |
| Matcher.SightingsAppend | bot/bosko_bot.py:108-116 | the hits of two shop lists joined are the hits of the first followed by the hits of the second |
| Matcher.FailedShopSkipped | bot/bosko_bot.py:108-116 | a shop whose product fetch raises is skipped and the shops around it are checked as usual |
| Matcher.FlavorSightingsMembers | bot/bosko_bot.py:112-114 | a product gives a hit exactly when some favorite flavor matches it |
| Matcher.ProductSightingsMembers | bot/bosko_bot.py:111-114 | a shop gives a hit for a product exactly when the product is listed and some flavor matches it |
| Matcher.SightingsSound | bot/bosko_bot.py:108-116 | every hit names a favorite shop whose fetch succeeded, a product it offers and a favorite flavor that matches it |
| Matcher.SightingsComplete | bot/bosko_bot.py:108-116 | every such shop, product and matching flavor gives a hit |
| Matcher.SightingsMembers | bot/bosko_bot.py:108-116 | the hits are exactly the witnessed (shop, product) pairs |
| Clock.MatchesTimePattern | bot/bosko_bot.py:708-709 | an accepted time is one or two digits, a colon and two digits |
| Clock.ClockText | bot/bosko_bot.py:708 | the rendering of a time has the accepted shape: one or two digits, a colon and two digits |
| Clock.ParseClock | bot/bosko_bot.py:806-810 | an accepted time parses to an hour at most 23 and a minute at most 59, so building the time of day cannot fail |
| Clock.ClockTextAccepted | bot/bosko_bot.py:708-709 | every valid time of day, zero-padded or, below 10, not, is accepted and parses back to itself |
| Clock.AcceptedIsClockText | bot/bosko_bot.py:708-709 | every accepted text is the rendering of the time it parses to |
| Clock.MalformedTimesRejected | bot/bosko_bot.py:708-714 | "24:00", "12:60", "9:5", "009:00" and "09.00" are rejected, while "9:05", "09:05" and "23:59" are accepted |
| Clock.DayIndex | bot/bosko_bot.py:772-782 | a day name gives its index below 7, and any other text gives nothing |
| Clock.DayNamesDistinct | bot/bosko_bot.py:772-780 | the seven day names are pairwise different |
| Clock.DayIndexOfName | bot/bosko_bot.py:781-782 | each day name selects its own index |
| Favorites.FavoriteList.constructor | bot/bosko_bot.py:339-340 | a new favorite list is empty |
| Favorites.FavoriteList.Add | bot/bosko_bot.py:529-531 | appends the element exactly when it is absent and reports whether it did |
| Favorites.FavoriteList.AddAll | bot/bosko_bot.py:459-466 | the list becomes the merge of the selection into it, and the count is the number of entries added |
| Jobs.JobQueue.RunDaily | bot/bosko_bot.py:826-833 | registers the job under a handle that was never used before, leaving the other live jobs as they were |
| Jobs.JobQueue.ScheduleRemoval | bot/bosko_bot.py:813-814 | the job with that handle is no longer live, and the other jobs are untouched |
| Jobs.Fire | bot/bosko_bot.py:90-126 | a firing reads the favorite lists the job shares with the user, as they are then, and sends the availability digest for them |
| Routing.State.Number | bot/bosko_bot.py:40-49 | the states are numbered 0 to 9, and END is -1 |
| Routing.NumbersDistinct | bot/bosko_bot.py:40-49 | distinct states have distinct numbers |
| Routing.MatchesButton | bot/bosko_bot.py:916-918 | a message matching a button's pattern is the button's text, perhaps followed by one newline |
| Routing.ButtonOf | bot/bosko_bot.py:913-962 | only the button-only states (choosing the favorite type, the shop search method, the daily-updates setup) have registered buttons |
| Routing.ChooseFavoriteType | bot/bosko_bot.py:272-292 | "flavor" anywhere in the lower-cased text leads to the flavor search, otherwise "shop" to the shop search, otherwise the dialogue ends |
| Routing.FavoriteTypeButtons | bot/bosko_bot.py:916-918 | the Flavors button leads to the flavor search and the Shops button to the shop search |
| Routing.HandleDailyUpdatesChoice | bot/bosko_bot.py:643-701 | only text containing "set daily updates" goes on to ask for a time; viewing the settings and anything else end the dialogue |
| Routing.DailyUpdatesButtons | bot/bosko_bot.py:955-962 | the Set Daily Updates button asks for a time, and the View Current Settings button ends the dialogue |
| Routing.SearchShopMethod | bot/bosko_bot.py:374-404 | "shop name" leads to the name search; otherwise "city" leads to the city list, or ends the dialogue when no shop has a city; anything else ends it; the two buttons take the first two routes |
| Routing.ShopMethodButtons | bot/bosko_bot.py:928-933 | the by-name button contains "shop name"; the by-city button contains "city" but not "shop name" |
| Dialogue.Without | bot/bosko_bot.py:813-814 | removing a job leaves every other live job with the same registration, and only that handle is gone |
| Dialogue.ShortcutsAreWeekdaySets | bot/bosko_bot.py:765-769 | both day shortcuts are repetition-free lists of weekdays 0 to 6 |
| Dialogue.Session.constructor | bot/bosko_bot.py:913-977 | a new user has empty favorites, no dialogue in progress, no scratch values and no job |
| Dialogue.Session.SearchFlavorForFavorite | bot/bosko_bot.py:295-324 | no results keep asking; results are stored and a fresh, empty selection starts |
| Dialogue.Session.SelectFlavors | bot/bosko_bot.py:327-371 | Done with an empty selection is refused; Done merges the selection into the favorite flavors; Cancel ends with the favorites unchanged; any other text joins the selection once |
| Dialogue.Session.ChooseCity | bot/bosko_bot.py:407-436 | Cancel ends; a city without shops asks again; otherwise that city's shops are offered by name and a fresh selection starts |
| Dialogue.Session.SelectShopFromCity | bot/bosko_bot.py:439-497 | Cancel ends; Done with an empty selection is refused; Done merges the selection into the favorite shops and reports how many were new; an offered shop name joins the selection once, the name search's offer winning on a clash; other text is refused |
| Dialogue.Session.SelectShopByName | bot/bosko_bot.py:500-556 | "cancel" in any letter case ends; no match asks again; a single match becomes a favorite at once unless it already is; several matches are offered for a fresh selection |
| Dialogue.Session.BeginDailyUpdates | bot/bosko_bot.py:608-640 | the dialogue opens exactly when the user has at least one favorite flavor and one favorite shop |
| Dialogue.Session.SelectUpdateTime | bot/bosko_bot.py:704-743 | a malformed time asks again; an accepted time is stored with the default time zone and a fresh day selection starts |
| Dialogue.Session.FinalizeDailyUpdates | bot/bosko_bot.py:798-860 | the previous job is removed; a new job runs at the parsed time on the chosen days with data holding the user's own favorite lists; the user ends with exactly one live job, recorded with its configuration |
| Dialogue.Session.SelectUpdateDays | bot/bosko_bot.py:746-795 | Cancel ends without scheduling; Done with no days is refused; Done, All days and Weekdays only schedule the selected, all or Monday-to-Friday days; a day name joins the selection once; other text is ignored; only scheduling changes the job |
| Dialogue.Session.StopDailyUpdates | bot/bosko_bot.py:863-872 | removes the user's job if there is one, forgets it, reports whether there was one, and leaves the user with no live job |
| Dialogue.Session.OnFavoritesMessage | bot/bosko_bot.py:913-950 | with no dialogue in progress only /add_favorite is taken; in a dialogue only /cancel among commands; button-only states take only their buttons or Cancel; other states take any text; favorites only grow; an untaken message changes nothing |
| Dialogue.Session.RunFavoritesHandler | bot/bosko_bot.py:915-942 | the handler of the current state stays within the add-favorite states, and the favorite lists only grow |
| Dialogue.Session.RunFlavorHandler | bot/bosko_bot.py:920-927 | the flavor search and selection stay within the add-favorite states, and the favorite flavors only grow |
| Dialogue.Session.RunShopHandler | bot/bosko_bot.py:928-942 | the shop search and selection stay within the add-favorite states, and the favorite shops only grow |
| Dialogue.Session.OnDailyUpdatesMessage | bot/bosko_bot.py:952-977 | with no dialogue in progress only /daily_updates is taken; in a dialogue only /cancel among commands; the setup state takes only its buttons or Cancel; the job changes only when the day selection finishes |
| Dialogue.Session.RunDailyUpdatesHandler | bot/bosko_bot.py:954-970 | the handler of the current state stays within the daily-updates states, and only the day selection can replace the job |
| Dialogue.Session.Receive | bot/bosko_bot.py:979-988 | a message goes to the add-favorite dialogue first, then to the daily-updates dialogue, then to /stop_daily_updates; a dialogue that does not take it is left unchanged; /stop_daily_updates reaches its command exactly when neither dialogue takes it |

## Left out

- Text.Normalize: `unidecode` transliteration is not modelled; `normalize` is strip followed by ASCII lower-casing, so letters outside A-Z are compared as they are, and NormalizeIdempotent is a fact about this normalize only.
- TtlCache.BucketMonotone: states only that bucket indexes follow the clock; the model does not assume `time.time()` never goes back, and entries of past buckets stay in the table until evicted, so "an expired entry is never looked up again" holds only while the clock does not go back.
- Text.Lower: Python's full Unicode `str.lower` is not modelled; only A-Z are lowered.
- `time.time()` is a float; the model takes the current time as whole seconds.
- The `typed` flag of `lru_cache`, keyword arguments, `maxsize=None` and the cache's thread safety are not modelled.
- The three cached catalog calls (`get_cached_shops`, `get_products_at_shop`, `cached_api_search`) are parameters; their caching is what `TtlCache` models on its own.
- The network client, login, endpoints and response decoding are not part of this model, including whether the endpoint methods the bot calls exist; Matcher.NoFetchNoSightings states what follows when every product fetch fails.
- A catalog call that raises inside a dialogue handler is not modelled; the shop list is always available.
- Reply texts, keyboards, Markdown formatting and the digest's message text are not modelled; the digest is the list of (shop, product) hits.
- The view-current-settings reply only reads the recorded configuration, so only its transition to END is modelled.
- The job queue's timing, time zones, `pytz`, the job name and `datetime.now` are not modelled; a job records hour, minute, days and data.
- PicklePersistence, the per-chat keying of conversations and concurrency between users and jobs are not modelled; a `Session` is one user in one chat.
- `start`, `products`, `shops_command`, `search_flavor`, `search_available`, `show_favorites`, `remove_favorite`, `post_init` and `main` beyond the handler order are not part of this model.
- The user's favorite lists always exist, so the "create the list if missing" steps are implicit.
- Shops are compared by (id, name, city); the API's shop objects carry more fields and are compared on all of them, so in the bot the same shop (same id) can become a second favorite once another field such as its rating changes, which the model's duplicate-free favorite shops rule out.
- Dialogue.Session.OnFavoritesMessage: the per-state effects of the handlers are stated in their own contracts, not repeated in the dispatcher's.
- Dialogue.Session.OnDailyUpdatesMessage: the per-state effects of the handlers are stated in their own contracts, not repeated in the dispatcher's.
- Dialogue.Session.Receive: states routing and which state may change, not the handlers' effects.
- Dialogue.Session.RunFavoritesHandler: states only the range of the next state and growth of the favorites beyond the choose-type case.
- Dialogue.Session.RunFlavorHandler: states only the range of the next state and growth of the favorite flavors.
- Dialogue.Session.RunShopHandler: states only the range of the next state and growth of the favorite shops.
- Dialogue.Session.RunDailyUpdatesHandler: states only the range of the next state, the setup case and when the job may change.

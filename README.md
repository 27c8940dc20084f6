# VibePulse event discovery core, in Dafny

This project models the event-discovery back end of VibePulse and three small
pieces of UI state, and proves properties about them.

- **Recommendation engine** (`Recommendations`). It computes a five-term
  relevance score, the reasons shown beside a recommendation, and three ranked
  listings: recommendations, trending events and events with friend activity.
- **Ranking pipeline** (`Ranking`). It sorts stably, highest key first, then
  keeps the first `limit` entries. Every listing uses it.
- **Entity store** (`Store`). The `Database` class holds users, events and
  interests in insertion-ordered maps (`OrderedMaps`, a key sequence plus a
  map). It offers lookups, filtered event listing, merge-style updates and the
  RSVP mutation.
- **Social manager** (`Social`). The `SocialManager` class keeps an
  append-only activity log. It derives friend views of an event and recalculates
  an event's trending score, which it writes back to the store.
- **TTL cache** (`TtlCache`). The `Cache` class stores entries that expire.
  `get` evicts lazily, `cleanup` evicts in bulk, `InvalidateCache` removes by
  substring, and `WithCache` memoises a function.
- **UI state** (`InterestPicker`, `Feed`, `AvatarStack`):
  - the onboarding interest toggle;
  - the feed's filter selector and its visibility rules;
  - the avatar stack's overflow arithmetic.

Every operation is synchronous. The `async` wrappers of the source never wait
on real I/O.

Inputs the source reads from its environment become parameters:

- the clock (`now`, in ms);
- activity ids;
- the hour of an event's timestamp (`hourOf`, `None` when it does not parse);
- the instant of an event's timestamp (`instantOf`);
- the cache key of a memoised call (`keyOf`).

Score weights are exact `real`s. JavaScript `null`/`undefined` results are
`None`. `slice(0, n)` is modelled exactly, so a negative `n` drops entries from
the end.

The model follows these behaviours of the code:

- The `category` filter of `getEvents` is exact tag membership, not a substring
  match.
- The location and time score terms apply only when the event's own location or
  timestamp is non-empty, as well as the preference.
- RSVP status is not validated at run time. The model's status type has only the
  three legal values.

Helper modules:

- `Seqs`: the array methods `filter`, `map`, `includes` and `slice`.
- `Text`: lower-casing, substring search, `join`, and decimal rendering of
  counts.
- `Types`: the entity shapes of lib/types.ts.

## Model

| member | source | states |
|---|---|---|
| Recommendations.InterestTerm | lib/recommendations.ts:61-65 | the interest term lies in [0, 0.4] and equals 0.4 exactly when the event has tags and every tag is one of the user's interests |
| Recommendations.SocialTerm | lib/recommendations.ts:67-75 | the social term lies in [0, 0.3] and is 0 exactly when no friend attends and none is interested |
| Recommendations.HistoryTerm | lib/recommendations.ts:77-84 | the history term is 0.15 exactly when the user has attended some event, else 0 |
| Recommendations.LocationTerm | lib/recommendations.ts:86-93 | the location term is 0.1 or 0.05, and 0.05 exactly when a non-empty preference and a non-empty event location are given and the lower-cased location does not contain the lower-cased preference |
| Recommendations.TimeTerm | lib/recommendations.ts:95-102 | the time term is 0.05 or 0.025, and 0.025 exactly when a preference and a timestamp are given and the event's hour is not in the preferred part of the day |
| Recommendations.PreferredTimePartition | lib/recommendations.ts:140-153 | `isPreferredTime` holds for an hour 0..23 exactly for the one preference that names the hour's part of the day, so the four ranges partition the day |
| Recommendations.FractionBound | lib/recommendations.ts:64 | the overlap fraction with denominator max(tags, 1) lies in [0, 1] and is 1 only when all tags overlap |
| Recommendations.RelevanceScore | lib/recommendations.ts:53-105 | the score is the sum of the five terms and lies in [0.075, 1.0], so the 1.0 cap never changes it |
| Recommendations.WorkedExample | lib/recommendations.ts:61-104 | interests music/tech, one attending friend, some history, tags music/art and no preferences score exactly 0.60 |
| Recommendations.Assemble | lib/recommendations.ts:108-136 | the assembled list holds exactly the reasons whose conditions hold |
| Recommendations.AssembleOrdered | lib/recommendations.ts:108-136 | the assembled reasons are strictly increasing in rank: interest, friends, popular, trending, each at most once |
| Recommendations.ReasonsOrdered | lib/recommendations.ts:107-138 | the reasons of an event come in the fixed order interest, friends, popular, trending, each at most once |
| Recommendations.InterestReason | lib/recommendations.ts:111-116 | the interest reason appears exactly when some tag is one of the user's interests, and it lists the matching tags in tag order |
| Recommendations.FriendsReason | lib/recommendations.ts:119-124 | the friends reason appears exactly when some attendee is a friend, and it carries the number of attending friends |
| Recommendations.BuzzReasons | lib/recommendations.ts:127-134 | the popularity reason appears exactly when total attendance exceeds 10, and the trending reason exactly when the buzz score exceeds 7 |
| Recommendations.GenerateReasons | lib/recommendations.ts:107-138 | one text per reason, in the same order: the i-th text is the rendering of the i-th reason |
| Recommendations.FriendsReasonText | lib/recommendations.ts:123-125 | the friends text is "N friend attending" for N = 1 and "N friends attending" otherwise, and the number reads back as N |
| Recommendations.ScoredFromEvents | lib/recommendations.ts:31-42 | every scored entry carries its own event with that event's score and reasons |
| Recommendations.GetRecommendations | lib/recommendations.ts:21-51 | the result is a prefix of the stable highest-first sort of every scored event, hence sorted by score and drawn from them (as a sub-multiset); no scored event left out scores above a kept one; it has min(limit, number of events) entries, since the positive-score filter drops nothing; each entry is a stored event with its own positive score and reasons; the limit defaults to 10 |
| Recommendations.RecommendationsStable | lib/recommendations.ts:45-48 | among entries with equal scores the result keeps the events' store order, and keeps the first of them |
| Recommendations.GetTrendingEvents | lib/recommendations.ts:155-162 | the result is a prefix of the stable highest-first sort of the events with a buzz score above 5, drawn from them as a sub-multiset; no such event left out has a higher buzz score than a kept one; it has min(limit, number of such events) entries; the limit defaults to 5 |
| Recommendations.FriendActivityWitness | lib/recommendations.ts:168-176 | an event passing the friend filter has a friend among its attendees or among its interested users |
| Recommendations.GetEventsByFriends | lib/recommendations.ts:164-185 | the result is a prefix of the stable sort, by friends attending plus interested and highest first, of the events some friend attends or is interested in, drawn from them as a sub-multiset; no such event left out has more friend activity than a kept one; it has min(limit, number of such events) entries; the limit defaults to 10 |
| Recommendations.ListingsCompleteWithRoom | lib/recommendations.ts:45-48 | with a limit at least the number of events, each listing returns every qualifying entry exactly as often as it occurs: every scored event, every trending event, every friend-active event |
| Ranking.SortDesc | lib/recommendations.ts:47 | the sort returns a permutation of its input, ordered by key, highest first |
| Ranking.SortStable | lib/recommendations.ts:47 | the sort is stable: entries sharing a key keep their input order |
| Ranking.TopByKey | lib/recommendations.ts:45-48 | sort-then-slice returns a prefix of the sorted input, with min(limit, length) entries for a non-negative limit; no dropped entry outranks a kept one |
| Ranking.TopByKeyStable | lib/recommendations.ts:45-48 | after truncation the kept entries of any key are the first ones of that key in input order |
| OrderedMaps.OrderedMap.Set | lib/database.ts:17 | `Map.set` keeps a valid map, updates the entry, keeps the key's position when present and appends the key when new |
| OrderedMaps.OrderedMap.Values | lib/database.ts:48 | iteration yields one value per key, in key order |
| OrderedMaps.SetValues | lib/database.ts:82 | setting a new key appends its value to the iteration; setting a present key replaces its value in place |
| OrderedMaps.LookupAll | lib/database.ts:30-34 | the bulk lookup returns the values of the known ids in input order, and never more values than ids |
| Store.Database.constructor | lib/database.ts:7-9 | the store starts with three empty maps |
| Store.Database.GetUser | lib/database.ts:12-14 | returns the stored user, or `None` exactly when the id is unknown |
| Store.Database.CreateUser | lib/database.ts:16-19 | stores the user under its id, replacing any user there, and returns it; the other maps are unchanged |
| Store.Database.UpdateUser | lib/database.ts:21-28 | an unknown id returns `None` and changes nothing; otherwise the carried fields overwrite, the others are kept, and the merged user is stored and returned |
| Store.Database.GetUsersByIds | lib/database.ts:30-34 | returns the stored users of the known ids in input order, skipping unknown ids, and at most as many as ids; all of them when all are known |
| Store.Database.GetEvent | lib/database.ts:37-39 | returns the stored event, or `None` exactly when the id is unknown |
| Store.Database.AllEvents | lib/database.ts:48 | one stored event per key, in insertion order: the i-th entry is the event stored under the i-th inserted key |
| Store.FilterChain | lib/database.ts:50-72 | the four conditional filters together keep exactly the events matching every given filter, in order |
| Store.FilterChainIsOneFilter | lib/database.ts:50-72 | the sequence of conditional filter steps equals one filter by the conjunction of the given conditions |
| Store.StepIsFilter | lib/database.ts:50-72 | a filter step that is skipped because its filter is absent is the same as filtering by an always-true condition |
| Store.AllStepsMatch | lib/database.ts:50-72 | the conjunction of the four steps keeps exactly what the combined match keeps |
| Store.Database.GetEvents | lib/database.ts:41-79 | the result is an order-preserving subsequence of the stored events and a prefix of the matching ones; all of them without a truthy limit; min(limit, matching) of them for a positive limit; max(matching + limit, 0) of them for a negative limit, as `slice(0, limit)` drops from the end; each matches the category tag, the case-insensitive location and the inclusive date bounds |
| Store.GetEventsUnfiltered | lib/database.ts:41-79 | without filters the listing is every stored event in insertion order |
| Store.Database.CreateEvent | lib/database.ts:81-84 | stores the event under its id, replacing any event there, and returns it |
| Store.Database.UpdateEvent | lib/database.ts:86-93 | an unknown id returns `None` and changes nothing; otherwise the carried fields overwrite and the others are kept |
| Store.MergeEventIdempotent | lib/database.ts:90 | applying the same update twice equals applying it once |
| Store.Rejoined | lib/database.ts:100-108 | after the remove-then-append step a list holds the user exactly when appending was asked for, then exactly once and last, and all other ids are as before |
| Store.Rsvp | lib/database.ts:99-108 | only the two membership lists change; afterwards the user is in at most one of them; attending (interested) puts the user exactly once, at the end of the attendee (interested) list; not attending puts the user in neither; every other id keeps its entries and their order |
| Store.RsvpLastWins | lib/database.ts:99-108 | only the last RSVP of a user counts: an earlier one leaves no trace |
| Store.RsvpIdempotent | lib/database.ts:99-108 | repeating an RSVP yields the same lists |
| Store.RsvpOthersUnaffected | lib/database.ts:100-107 | an RSVP never changes how often another user's id occurs in either list |
| Store.Database.RsvpToEvent | lib/database.ts:95-112 | returns false for an unknown event and changes nothing; otherwise returns true, stores the event with its lists as `Rsvp` computes them, and keeps the event's position |
| Store.Database.GetInterests | lib/database.ts:115-117 | returns every stored interest, in insertion order |
| Store.Database.CreateInterest | lib/database.ts:119-122 | stores the interest under its id and returns it |
| Store.BuzzPatchOnlyBuzz | lib/social.ts:101-107 | the buzz-only update replaces the event's buzz and keeps every other field |
| Social.ToConnection | lib/social.ts:31-37 | a connection copies the friend's id, username, display name and avatar, tagged as a friend |
| Social.SocialManager.constructor | lib/social.ts:15 | the activity log starts empty |
| Social.SocialManager.FriendViews | lib/social.ts:24-38 | the friend view lists, in list order, one connection for each id in the list that is a friend of the user and known to the store |
| Social.SocialManager.FriendsAttending | lib/social.ts:24-38 | the friend views of the attendee list: one connection, tagged friend, per stored friend among the attendees, in attendee order; every attendee when all attendees are known friends; none when no attendee is a friend |
| Social.SocialManager.FriendsInterested | lib/social.ts:40-54 | the friend views of the interested list, with the same guarantees as for attendees |
| Social.SocialManager.FriendViewsLength | lib/social.ts:24-54 | bounds the friend views by the list, and states when they are complete and when they are empty |
| Social.MutualIds | lib/social.ts:133-136 | the mutual ids are exactly the attendees and interested users that are friends, the user excluded |
| Social.MutualIdsCount | lib/social.ts:133-136 | a friend listed as both attending and interested appears once per listing |
| Social.SocialManager.MutualFriends | lib/social.ts:132-147 | one connection per stored mutual id, in attendee-then-interested order |
| Social.SocialManager.RecordActivity | lib/social.ts:56-67 | appends exactly one activity with the given fields stamped `now`, keeps the earlier log, and then recalculates the buzz of that event |
| Social.RecentFor | lib/social.ts:87-92 | an activity counts as recent for an event exactly when it belongs to that event and is strictly later than one hour before `now`, and each such activity is kept as often as it occurs in the log |
| Social.RecordedIsRecent | lib/social.ts:56-67 | an activity recorded now raises the recent count of its own event by one and leaves other events' counts unchanged |
| Social.ClampTrending | lib/social.ts:99 | the clamp never exceeds 10 or its argument and returns one of the two |
| Social.TrendingScore | lib/social.ts:95-99 | the trending score is the smaller of 10 and 0.1 per recent activity plus 0.2 per attendee plus 0.1 per interested user: it equals that sum exactly when the sum is at most 10, and is 10 when the sum exceeds 10 |
| Social.TrendingMonotone | lib/social.ts:95-99 | more recent activity never lowers the trending score |
| Social.RecalculatedBuzz | lib/social.ts:101-107 | the stored buzz has zero friends attending, the attendee count as total, and as trending score the capped formula over the recent count and the event's attendee and interested counts |
| Social.RecordRaisesTrending | lib/social.ts:56-67 | recording an activity for an event never lowers its recalculated trending score, and raises it while the score is below 10 |
| Social.SocialManager.UpdateEventSocialBuzz | lib/social.ts:83-112 | an event unknown to the store leaves the store unchanged; otherwise only that event's buzz is replaced by the recalculated one |
| Social.SocialManager.RecentActivities | lib/social.ts:69-74 | a prefix of the stable newest-first sort of the event's activities in the log, drawn from them as a sub-multiset; no activity of the event left out is newer than a kept one; min(limit, number of such activities) entries; the limit defaults to 10 |
| Social.SocialManager.UserActivity | lib/social.ts:76-81 | a prefix of the stable newest-first sort of the user's activities in the log, drawn from them as a sub-multiset; no activity of the user left out is newer than a kept one; min(limit, number of such activities) entries; the limit defaults to 20 |
| Social.FriendsAmong | lib/social.ts:122-123 | the friend count is 0 without a user, and otherwise the number of attendee entries that are friends of the user; it is 0 exactly when no user is given or no attendee is a friend, and equals the attendee count exactly when all attendees are friends |
| Social.SocialManager.SocialBuzzOf | lib/social.ts:114-130 | changes nothing; the total is the attendee count; the friend count is the number of the user's friends among the attendees; the trending score is 0.5 per activity of the event in the last hour when that is at most 10, and 10 otherwise |
| Social.SocialManager.PollForUpdates | lib/social.ts:150-157 | exactly the event's activities strictly newer than `since`, each as often as in the log, newest first; it is the stable sort of those activities, so equal timestamps keep log order |
| TtlCache.Fetch | lib/cache.ts:21-33 | `get` yields the data exactly when the key is present and its entry is at most `ttl` old |
| TtlCache.AfterFetch | lib/cache.ts:26-30 | `get` deletes only the requested key, and only when its entry has expired |
| TtlCache.Cache.constructor | lib/cache.ts:11 | the cache starts empty |
| TtlCache.Cache.Set | lib/cache.ts:13-19 | stores the data stamped `now` with the given ttl (5 minutes by default), replacing any entry for the key |
| TtlCache.Cache.Get | lib/cache.ts:21-33 | returns what `Fetch` yields and leaves what `AfterFetch` leaves |
| TtlCache.Cache.Delete | lib/cache.ts:35-37 | removes the given key only |
| TtlCache.Cache.Clear | lib/cache.ts:39-41 | empties the cache |
| TtlCache.Pruned | lib/cache.ts:44-51 | cleanup keeps exactly the unexpired entries, unchanged |
| TtlCache.Cache.Cleanup | lib/cache.ts:44-51 | the deleting loop over the keys leaves exactly `Pruned` of the old entries |
| TtlCache.PrunedKeepsFetch | lib/cache.ts:44-51 | a cleanup at `now` changes no `get` at `now` |
| TtlCache.PrunedIdempotent | lib/cache.ts:44-51 | a second cleanup at the same instant removes nothing more |
| TtlCache.PrunedLaterIsSmaller | lib/cache.ts:44-51 | a later cleanup keeps a subset and subsumes an earlier one |
| TtlCache.FetchAfterSet | lib/cache.ts:13-33 | a stored entry is served until it is more than `ttl` old, and other keys read as before |
| TtlCache.WithoutMatching | lib/cache.ts:84-91 | invalidation keeps exactly the keys that do not contain the pattern, with their entries |
| TtlCache.InvalidateCache | lib/cache.ts:84-91 | the deleting loop leaves exactly `WithoutMatching` of the old entries |
| TtlCache.InvalidateEmptyClears | lib/cache.ts:84-91 | the empty pattern is contained in every key, so invalidating it clears the cache |
| TtlCache.Memoized | lib/cache.ts:68-81 | the wrapped function is skipped exactly on a non-null, unexpired hit, which returns the cached value and changes nothing; otherwise the function's result is returned and stored under the key, stamped `now` |
| TtlCache.WithCache | lib/cache.ts:64-82 | the wrapper's result, whether it ran the function, and the new cache are those of `Memoized` |
| TtlCache.MemoSecondCallHits | lib/cache.ts:64-82 | a freshly computed non-null result is served from the cache, without running the function, by every call within its ttl |
| TtlCache.MemoNullNeverServed | lib/cache.ts:72-80 | a null result is never served from the cache: the next call runs the function again |
| InterestPicker.AvailableIds | components/InterestSelector.tsx:12-23 | the ten offered interest ids, in display order |
| InterestPicker.Toggled | components/InterestSelector.tsx:28-34 | a toggle flips the id's membership: an absent id is appended at the end; a present id loses every occurrence while the others keep their order; other ids keep their counts |
| InterestPicker.ToggleTwiceRestores | components/InterestSelector.tsx:28-34 | toggling an absent id twice restores the selection |
| InterestPicker.ToggleKeepsDistinct | components/InterestSelector.tsx:28-34 | toggling keeps a selection free of duplicates |
| InterestPicker.ToggleKeepsAvailable | components/InterestSelector.tsx:53-58 | toggling offered interests keeps the selection within the offer |
| InterestPicker.InterestSelector.constructor | components/InterestSelector.tsx:26 | the selection starts as the current interests |
| InterestPicker.InterestSelector.ToggleInterest | components/InterestSelector.tsx:28-34 | the selection becomes `Toggled` of the old one |
| InterestPicker.InterestSelector.HandleComplete | components/InterestSelector.tsx:36-39 | the current selection is reported first, then completion |
| InterestPicker.InterestSelector.CompleteDisabled | components/InterestSelector.tsx:92 | the complete button is disabled exactly when nothing is selected |
| InterestPicker.InterestSelector.CompleteLabel | components/InterestSelector.tsx:95 | the label asks for an interest exactly when the button is disabled |
| Feed.Filtered | components/EventFeed.tsx:27-36 | the filtered list is an order-preserving subsequence; `friends` keeps exactly the entries with attending friends; `trending` keeps exactly those whose buzz score exceeds 8; `all` keeps everything; every kept entry is kept as often as it occurs |
| Feed.EventFeed.constructor | components/EventFeed.tsx:10-12 | the feed starts empty, loading, with the `all` filter |
| Feed.EventFeed.LoadRecommendations | components/EventFeed.tsx:16-22 | after loading, the recommendations are the loaded ones and loading is over |
| Feed.EventFeed.SetFilter | components/EventFeed.tsx:74-103 | a filter button selects its filter and changes nothing else |
| Feed.EventFeed.ShowAll | components/EventFeed.tsx:142 | "Show All Events" resets the filter to `all` |
| Feed.EventFeed.FilteredRecommendations | components/EventFeed.tsx:27-36 | the shown list is the subsequence of recommendations passing the current filter, each passing entry as often as it occurs |
| Feed.EventFeed.ShowsEmptyState | components/EventFeed.tsx:108-146 | the empty state shows exactly when loading is over and no recommendation passes the filter |
| Feed.EventFeed.ShowsLoadMore | components/EventFeed.tsx:150-156 | "Load More" shows exactly when loading is over and some recommendation passes the filter |
| Feed.EmptyOrMore | components/EventFeed.tsx:108-156 | once loaded, exactly one of the empty state and "Load More" is shown |
| Feed.ShowAllEmptyOnlyWithoutRecommendations | components/EventFeed.tsx:142 | with the `all` filter the empty state shows only when there are no recommendations |
| AvatarStack.VisibleUsers | components/UserAvatarStack.tsx:13-14 | the visible users are a prefix of the users, min(maxVisible, users) of them for a non-negative limit; the default limit is 3 |
| AvatarStack.RemainingCount | components/UserAvatarStack.tsx:15 | for a non-negative limit, visible users plus the positive part of the remainder account for every user |
| AvatarStack.BadgeIffHidden | components/UserAvatarStack.tsx:34 | for a non-negative limit the badge is drawn exactly when some users are hidden |
| AvatarStack.BadgeText | components/UserAvatarStack.tsx:39-41 | the badge reads "+" followed by digits whose value is the remaining count |
| AvatarStack.ZIndices | components/UserAvatarStack.tsx:19-23 | visible z-indices are strictly decreasing from the count down to 1, all above the badge's 0 |
| AvatarStack.AvatarLabel | components/UserAvatarStack.tsx:27-29 | the label is the display name when it is non-empty, and the username when it is empty |

## Left out

- Floating point. Score weights, trending scores and the `0.5`/`0.1`/`0.2` factors are exact reals. IEEE-754 rounding and near-threshold float ties are not modelled.
- Date parsing and time zones. `new Date(dateTime).getHours()` is the parameter `hourOf`, and date comparisons use the parameter `instantOf`.
- Store.Database.GetEvents: `dateFrom`/`dateTo` are instants. An invalid `Date` given as a bound, which rejects every event in the source, is not representable.
- Recommendations.TimeTerm: the preference is one of four values. The source's fallback for an unknown preference string, which matches every hour, is not representable.
- `Date.now()` and `Math.random()`. The clock is the parameter `now` and activity ids are the parameter `id`.
- Social.SocialManager.RecordActivity: the source reads the clock again inside the recency filter. The model uses the single instant `now` both for the new activity's timestamp and for the recency window.
- TtlCache.WithCache: the key built from `fn.name` and `JSON.stringify(args)` is the parameter `keyOf`. The wrapped function is a deterministic function. A cached `undefined`, which the source would serve, is not distinguished from `null`.
- The `setInterval` timer that runs `cleanup` every five minutes. Time passing is a sequence of calls with growing `now`.
- Singleton `getInstance` plumbing, the exported instances, `console.log`, and the `async`/`Promise` wrappers.
- Store.Database.RsvpToEvent: the source mutates the stored event object in place, so callers holding that object see the change. The model stores a new event value; aliasing is not captured.
- Store.Database.UpdateUser, Store.Database.UpdateEvent: a patch that carries a different id stores the merged entity under the old key, as the source does. Nothing here forbids that.
- `initializeSampleData` (lib/database.ts:125-159) is fixture data and is not part of this model.
- The cache's `Map` iteration order never affects a result, so the cache is a plain map.
- Lower-casing is ASCII only. Unicode case mapping is not modelled.
- Activity `metadata` values are strings, not arbitrary JSON.
- `maxDistance` is accepted and never used, as in the source.
- The mock recommendation generator that feeds the feed is random. It is the argument of `Feed.EventFeed.LoadRecommendations`. The one-second simulated delay is not modelled.
- Rendering details are not modelled: emoji, colours, CSS classes, the "n of 10 interests selected" text, the avatar placeholder URL, and the reason chips.

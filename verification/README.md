# FunTV channel pipeline and StreamVerse player — a Dafny model

FunTV is a small free-TV site. It has three parts, and this project models the logic of each.

**The build script** (`build-channels.js`):
- downloads four M3U playlists;
- parses each into channel records;
- groups the records by a normalised channel name;
- keeps the first record of each group as the channel, and stores the rest as that channel's alternatives;
- writes a cache snapshot with per-source statistics.

**The server** (`server.js`):
- keeps a fixed catalog of channels, each with prioritised sources;
- answers `/api/channels`, `/api/categories`, `/api/sources` and `/api/channel/:id/alternatives`;
- validates stream urls through a verdict cache that lives 30 minutes;
- runs a background scan (`validateSomeSources`) that validates a bounded number of sources.

**The browser client** (`public/app.js`, class `StreamVerse`):
- plays a channel, and falls back automatically from a failing stream to its alternative sources and then to the next channel;
- honours the user closing the player;
- keeps a search history and per-channel view counts in local storage.

Modules, one concept each:

| file | module | what it holds |
|---|---|---|
| `option.dfy` | `Options` | `Option`, standing for `null`/`undefined` |
| `text.dfy` | `Text` | JavaScript `trim` (exact ECMAScript white space), `toLowerCase`, `startsWith`, `includes`, `split('\n')`/`join`, integer printing |
| `js_map.dfy` | `JsMaps` | a JavaScript `Map` with its insertion order |
| `playlist.dfy` | `Playlist` | `parseM3U`: a loop method proved equal to a fold over the lines |
| `names.dfy` | `Names` | the channel-name key used for grouping |
| `catalog.dfy` | `Catalog` | grouping, primaries and alternatives, `sourceStats`, the snapshot; class `ChannelBuilder` |
| `sources.dfy` | `Sources` | source priorities, the stable priority sort, `pickBestSource` |
| `order.dfy` | `StringOrder` | the default string order of `sort()` and `new Set` de-duplication |
| `queries.dfy` | `Queries` | `normalizeCategory`, `channelMatchesQuery`, and the list-building bodies of the endpoints |
| `validation.dfy` | `Validation` | `validateUrl` and its cache, `isChannelVerified`, `validateSomeSources`, `/api/sources`; class `Validator` |
| `client.dfy` | `Client` | class `StreamVerse`, with an explicit queue of scheduled callbacks |

How the outside world is represented:
- The network is a parameter: a probe function from url to outcome on the server, and download outcomes in the build.
- The clock is a parameter `now`, one instant per call.
- Local storage and the DOM are fields of the client object.

The client's timers and its awaited fetch are entries in `pending`. Each `Fire…` method runs one of them, in any order. Their contracts, and those of `FinishPlayChannel`, prove that no scheduled callback switches the source or the channel while the player is closed. Direct user actions (`PlayChannel`, `CloseVideoPlayer`, `TrackChannelView`, `AddToSearchHistory`) do change state while closed, as in the browser code, and `FinishPlayChannel` still stores the fetched alternatives after a close.

Behaviour that the code has, and the model keeps:
- **Categories.** `normalizeCategory` is not idempotent. A blank category becomes `""`, and `""` becomes `"general"` (`Queries.NormalizeCategoryBlank`).
- **Search history.** `saveSearchHistory` stores `slice(-10)` of a history whose newest entry is first. So it stores the ten *oldest* entries. Once there are more than ten, the query just searched for is not stored (`Client.NewestQueryNotStored`).
- **Build ids.** Record ids restart at 1 in every playlist. A later group whose primary has the same id overwrites an earlier group's alternatives (`Catalog.AlternativesOverwritten`).
- **Alternative index.** `handleStreamFailure` keeps `currentAlternativeIndex <= |currentAlternatives|` when it holds. It does not hold globally: a stale timeout can run between `playChannel` and the arrival of its alternatives.
- **Stale callbacks.** A fetch of alternatives that completes after the player was closed still replaces `currentAlternatives`, but plays nothing (`Client.StreamVerse.FinishPlayChannel`).

## Model

| member | source | states |
|---|---|---|
| Text.Trim | server.js:179 | `trim` removes white space only at the ends; the result is empty exactly when the text is all white space |
| Text.TrimStartCuts | server.js:179 | what the leading trim removes is white space, and the rest is kept unchanged |
| Text.TrimEndCuts | server.js:179 | what the trailing trim removes is white space, and the rest is kept unchanged |
| Text.TrimIdempotent | server.js:184 | a trimmed text is trimmed, and trimming it again changes nothing |
| Text.LowerIdempotent | server.js:179 | lower-casing leaves no upper-case letter, and changes nothing in a text without one |
| Text.TrimLower | server.js:179 | trimming and lower-casing commute |
| Text.JoinSplit | build-channels.js:17 | splitting on line feeds loses nothing: joining the pieces gives the text back |
| Text.IntToStringInjective | server.js:115 | distinct statuses print differently, so `http_<status>` identifies the status |
| JsMaps.JsMap.Set | build-channels.js:127-130 | `set` replaces the value of a present key in place, and appends a new key at the end of the order |
| JsMaps.EntriesRoundTrip | build-channels.js:158 | reading back `Array.from(map.entries())` with `new Map` restores the map, order included |
| JsMaps.FromDistinctEntries | build-channels.js:158 | entries with distinct keys read back in order, each key with its value |
| Playlist.ParseM3U | build-channels.js:16-47 | the parser loop equals the fold `Parse`; every record has id = position + 1, the source's name and type, a non-empty name and a trimmed non-comment url |
| Playlist.Entry | build-channels.js:29-38 | a record started by `#EXTINF:` has the next id, the source, an empty url and is not validated |
| Playlist.NameFromLeftmost | build-channels.js:25 | the name is the text after the leftmost comma that the pattern `,(.+)$` can match; there is none exactly when the pattern matches nowhere |
| Playlist.AttrFromLeftmost | build-channels.js:26-27 | `tvg-logo` and `group-title` capture a non-empty, quote-free value at the leftmost match; there is none exactly when nothing matches |
| Playlist.EntryDefaults | build-channels.js:31-33 | without a match, the name is `Unknown Channel`, the logo is empty and the category is `General` |
| Playlist.RunWellFormed | build-channels.js:21-43 | loop invariant: records are well formed and numbered 1, 2, …; a pending record carries the next id; records ≤ `#EXTINF:` lines |
| Playlist.RunProvenance | build-channels.js:21-43 | every record comes from an `#EXTINF:` line and the first url line after it, with only blank or comment lines between |
| Playlist.ParseCountBound | build-channels.js:24-42 | at most one record per `#EXTINF:` line |
| Playlist.OrphanUrlIgnored | build-channels.js:39 | a url line with no pending record changes nothing |
| Playlist.SilentKeeps | build-channels.js:21-43 | blank lines and comments other than `#EXTINF:` leave the parser state unchanged |
| Playlist.ExtInfThenUrlEmits | build-channels.js:23-42 | an `#EXTINF:` line followed, after blank or comment lines, by a url line emits its record with that url and the next id, and leaves nothing pending |
| Playlist.ExtInfReplacesPending | build-channels.js:29 | an `#EXTINF:` line directly after another replaces it, and the first is never emitted |
| Names.Strip | build-channels.js:123 | only word characters and white space remain |
| Names.StripOne | build-channels.js:123 | one character is kept iff it is a word or white-space character |
| Names.StripConcat | build-channels.js:123 | the strip works character by character, so every kept character survives in order |
| Names.NormalizeNameCanonical | build-channels.js:122-125 | every key is lower-case word characters and single inner spaces, with no space at either end |
| Names.CanonicalIsFixed | build-channels.js:122-125 | a text of that shape is its own key |
| Names.NormalizeNameIdempotent | build-channels.js:122-125 | normalising a key again gives the same key |
| Names.CollapseShape | build-channels.js:124 | after collapsing, white space is a single `' '` |
| Catalog.AddToGroup | build-channels.js:127-130 | one step of grouping: the record is appended to its key's group, which is created on first sight |
| Catalog.GroupByName | build-channels.js:119-131 | the grouping loop equals the fold `GroupAll` and leaves a valid ordered map |
| Catalog.GroupKeys | build-channels.js:119-131 | there is one group per distinct key, in order of first appearance |
| Catalog.GroupMembers | build-channels.js:119-131 | each group holds exactly the records with its key, in input order |
| Catalog.GroupOrder | build-channels.js:127-129 | groups come in the order of their keys' first records |
| Catalog.MembersSpec | build-channels.js:130 | a record is in a key's group iff its own key is that key |
| Catalog.SameGroupIffSameKey | build-channels.js:121-131 | two records share a group iff their names normalise to the same key |
| Catalog.GroupSizesAddUp | build-channels.js:119-131 | the group sizes add up to the number of records: none is lost or counted twice |
| Catalog.GroupCount | build-channels.js:119-131 | there are as many groups as distinct keys |
| Catalog.GroupHeads | build-channels.js:135-137 | every group is non-empty and led by the first record with its key |
| Catalog.UniqueChannels | build-channels.js:133-144 | the channels kept are one per distinct key, in first-appearance order, each the first record with its key |
| Catalog.AlternativesWritten | build-channels.js:140-142 | a group of two or more stores its other members, in order, under its primary's id, unless a later group has a primary with the same id |
| Catalog.AlternativesUntouched | build-channels.js:140-142 | an id that is no multi-member group's primary keeps its previous entry, or stays absent |
| Catalog.AlternativesOverwritten | build-channels.js:141 | two groups whose primaries share an id leave only the later group's alternatives |
| Catalog.LoadedCount | build-channels.js:96-100 | the counts in `sourceStats` add up to the number of records loaded |
| Catalog.StatsBySource | build-channels.js:81-114 | `sourceStats` lists the sources in order; a success reports the parsed count, a failure 0 with its message |
| Catalog.StreamingSourcesDistinct | build-channels.js:52-78 | the four playlist names are distinct |
| Catalog.ChannelBuilder.constructor | build-channels.js:12-13 | `channelAlternatives` and `sourceStats` start empty |
| Catalog.ChannelBuilder.LoadChannelsFromSources | build-channels.js:50-148 | returns the primaries of the grouped records; `sourceStats` is rebuilt; alternatives are recorded per group |
| Catalog.ChannelBuilder.LoadSources | build-channels.js:80-115 | records are concatenated in source order; a failed download contributes none |
| Catalog.ChannelBuilder.BuildUniqueChannels | build-channels.js:134-144 | keeps each group's first member and stores the rest under its id |
| Catalog.ChannelBuilder.Snapshot | build-channels.js:154-160 | the snapshot's alternatives entries read back into the same map; no channel is marked validated |
| Sources.SortSpec | server.js:190 | the priority sort orders by `priority ?? 999` and is a permutation |
| Sources.SortStable | server.js:190 | sources of equal priority keep their relative order |
| Sources.SortLength | server.js:190 | sorting keeps the number of sources |
| Sources.PickBestIsBest | server.js:189-193 | sort-then-find picks the same source as a one-pass scan for the earliest usable source of least priority |
| Sources.BestSpec | server.js:189-193 | the scan finds nothing iff no source has a non-blank url; otherwise it finds a usable source of least priority, earliest among equals |
| Sources.FirstNonBlankIsHead | server.js:192 | the source found is the head of the usable sublist, and is usable |
| Sources.SortThenFilter | server.js:320-323 | dropping blank urls after sorting equals sorting the non-blank ones |
| StringOrder.LessTotal | server.js:230 | the default string order is total on distinct strings |
| StringOrder.LessTransitive | server.js:230 | the default string order is transitive |
| StringOrder.SortStringsSpec | server.js:230 | sorting distinct strings gives a strictly increasing permutation |
| StringOrder.StrictlySortedUnique | server.js:230 | two strictly increasing lists of the same strings are equal |
| StringOrder.DedupSpec | server.js:230 | `new Set` de-duplication keeps every string exactly once |
| Queries.NormalizeCategory | server.js:178-180 | the result is lower-case and trimmed |
| Queries.NormalizeCategoryCases | server.js:178-180 | an empty category is `general`; the result is empty iff the input is non-empty white space |
| Queries.NormalizeCategoryIdempotent | server.js:178-180 | normalising again changes nothing unless the first result was empty |
| Queries.NormalizeCategoryBlank | server.js:179 | a blank category normalises to `""`, and that normalises to `general` |
| Queries.MatchDefaults | server.js:283-288 | with category `all` or none and a blank search, every channel matches |
| Queries.SearchKeyIgnoresCaseAndPadding | server.js:184 | the search key ignores letter case and surrounding white space |
| Queries.MatchIgnoresCaseAndPadding | server.js:182-186 | a query and its lower-cased or trimmed form match the same channels |
| Queries.MatchByCategory | server.js:183 | a specific category matches only channels with the same normalised category, and a channel's own category filters like `all` |
| Queries.MatchByName | server.js:185 | a name containing the trimmed search text is found |
| Queries.MatchingChannelsSpec | server.js:288 | the filter keeps exactly the matching channels |
| Queries.FilterOne | server.js:288 | one channel is kept exactly when it passes the test |
| Queries.FilterConcat | server.js:288 | the filter works channel by channel, so kept channels keep catalog order and repetitions |
| Queries.ChannelListingSpec | server.js:299-309 | a channel's entry shows a best usable source's url and label, and an empty url iff it has no usable source |
| Queries.ChannelsList | server.js:282-311 | one entry per matching channel; a missing category means `all` |
| Queries.ChannelsListSpec | server.js:288-309 | every entry belongs to a matching channel, and every matching channel is listed |
| Queries.ChannelsListConcat | server.js:288-309 | the list is built in catalog order: the entries for a concatenation are those of each part, in turn |
| Queries.ChannelsListOne | server.js:288-309 | one channel gives its entry once exactly when it matches, and nothing otherwise |
| Queries.FindChannel | server.js:317 | finds a channel with the id, or none iff no channel has it |
| Queries.FindChannelFirst | server.js:317 | the channel found is the first with the id: every earlier channel has another id |
| Queries.Alternatives | server.js:315-334 | the status is 200 or 404 |
| Queries.AlternativesStatus | server.js:317-318 | an unknown id gives 404 with an empty list; a known id gives 200 |
| Queries.AlternativeSourcesSpec | server.js:320-331 | the alternatives are exactly the non-blank sources, sorted by priority, ties in catalog order |
| Queries.AlternativesLeadWithBest | server.js:320-331 | the first alternative is the source `/api/channels` shows; there is none iff that url is empty |
| Queries.CategoryNames | server.js:230 | position by position, the normalised categories |
| Queries.CategoriesSpec | server.js:230 | the categories are strictly increasing and are exactly the channels' normalised categories |
| Queries.CategoriesOrderFree | server.js:230 | the same channels in another order give the same categories |
| Validation.Judge | server.js:114-121 | the verdict is time-stamped `now`; ok iff the status is 200–399; the reason is `ok` iff ok |
| Validation.ReasonIdentifiesFailure | server.js:115-119 | two failed verdicts with the same reason had the same probe outcome |
| Validation.ValidateKeepsWellFormed | server.js:94-121 | only non-blank urls are cached, always with a time stamp |
| Validation.ValidateSettles | server.js:98-121 | validating a url does not change the verdict any url would get at the same instant |
| Validation.CachedVerdictReused | server.js:98-99 | within 30 minutes a url is not probed again: the cached verdict is returned, whatever the network says |
| Validation.FirstOkSettles | server.js:198-201 | checking a channel's sources does not change any url's verdict at that instant |
| Validation.FirstOkSpec | server.js:198-202 | the loop succeeds iff some source validates ok |
| Validation.AnyOkOrderFree | server.js:197 | whether some source validates ok does not depend on their order |
| Validation.ChannelVerifiedSpec | server.js:195-203 | `isChannelVerified` says whether any of the channel's sources validates ok |
| Validation.VerifiedOnlySpec | server.js:223-226 | the verified channels are exactly those with an ok source |
| Validation.VerifiedOnlyConcat | server.js:290-296 | the verified-only push loop keeps catalog order: the verified channels of a concatenation are those of each part, in turn |
| Validation.VerifiedOnlyOne | server.js:290-296 | one channel is kept exactly when one of its sources validates ok |
| Validation.VerifyListStep | server.js:224-226 | filtering from channel i on is checking channel i, then filtering the rest |
| Validation.VerifyListSpec | server.js:290-296 | the `validated=true` filter keeps exactly the channels with an ok source, judged against the cache it starts from |
| Validation.TrySourcesBounds | server.js:141-151 | a channel's scan never passes the limit, and a success costs at least one check |
| Validation.TrySourcesStopsAtFirstOk | server.js:141-151 | a successful scan stops at the first source that validates ok; all earlier ones failed |
| Validation.TrySourcesUnlimited | server.js:141-151 | with room under the limit, a channel's scan is `isChannelVerified` |
| Validation.ScanBounds | server.js:134-157 | a run checks at most `limit` urls and counts at most one channel per check and per channel |
| Validation.ScanCountsVerified | server.js:134-157 | with room for every source, the count is the number of channels with an ok source |
| Validation.ScanFirstChannel | server.js:137-154 | with room under the limit, the first channel counts iff it has an ok source, and no verdict changes |
| Validation.NoSourcesNoneVerified | server.js:134-154 | channels without sources are never counted |
| Validation.StatusOf | server.js:263 | `success` iff some url was ok; `fail` iff urls were checked and none was ok; `unknown` iff none was checked |
| Validation.InitialStatsSpec | server.js:237-240 | every label starts at zero checks |
| Validation.TallyRunSpec | server.js:253-259 | each label is counted once per checked url it carries, and once more per such url that validated ok |
| Validation.Report | server.js:261-265 | one report per registry label, in order, with the label's key and name |
| Validation.CheckedPairs | server.js:252 | at most 60 urls are checked |
| Validation.SourcesReportSpec | server.js:235-268 | each label reports the number of its checked urls, how many were ok, and the status that follows |
| Validation.Validator.constructor | server.js:82-90 | an empty cache, no run in progress, and a zero summary without a last run |
| Validation.Validator.ValidateUrl | server.js:93-123 | returns the verdict of `Validate`; the cache becomes the one it gives |
| Validation.Validator.IsChannelVerified | server.js:195-203 | the loop over the sorted sources equals `FirstOk` |
| Validation.Validator.VerifiedChannels | server.js:221-228 | the filter loop equals `VerifyList` |
| Validation.Validator.ValidateSomeSources | server.js:126-166 | does nothing while a run is in progress; otherwise records the scan's count, the checks made and the time, and clears the flag |
| Validation.Validator.TryChannel | server.js:141-151 | the inner loop equals `TrySources` |
| Validation.Validator.CategoriesEndpoint | server.js:217-232 | the sorted distinct categories of all channels, or of the verified ones |
| Validation.Validator.ChannelsEndpoint | server.js:282-312 | the entries of the matching channels, verified-only on request |
| Validation.Validator.SourcesEndpoint | server.js:235-268 | the registry report over the first 60 usable urls |
| Validation.Validator.RegistryStats | server.js:237-240 | every registry label starts at zero |
| Validation.Validator.CheckUrls | server.js:253-259 | the checking loop equals `TallyRun` |
| Validation.Validator.Bump | server.js:255-258 | one check, and its success if any, counted against the label, which is created when missing |
| Validation.Validator.CollectUrls | server.js:243-250 | the nested loops collect the usable `{key, url}` pairs, channel by channel |
| Client.CountView | public/app.js:105 | the viewed channel's count grows by one (starting from 0); every other count is unchanged |
| Client.NextChannelIndex | public/app.js:430 | wraps to 0 after the last channel; equals the current index only for a single channel; no index for an empty list |
| Client.JsRem | public/app.js:430 | JavaScript `%` for non-negative dividends |
| Client.RemoveAll | public/app.js:122 | the query no longer occurs |
| Client.RemoveAllSpec | public/app.js:122 | every other entry stays, as often as before and in the same order |
| Client.PushQuerySpec | public/app.js:120-126 | queries of ≤ 2 characters change nothing; a longer query comes first, occurs exactly once, and the others keep their order and counts |
| Client.LastTen | public/app.js:117 | at most ten entries, the last ones of the history |
| Client.NewestQueryNotStored | public/app.js:116-126 | with more than ten entries, the query just searched for is not among those stored |
| Client.GetTypeIcon | public/app.js:499-510 | the type's icon, and the television for any unknown type |
| Client.StreamVerse.constructor | public/app.js:2-21 | no channel, no alternatives, not closed, auto-switch on; counts and history come from storage or start empty |
| Client.StreamVerse.TrackChannelView | public/app.js:104-108 | one more view of the channel, stored, and one more channel viewed |
| Client.StreamVerse.SaveSearchHistory | public/app.js:116-118 | stores the last ten entries |
| Client.StreamVerse.AddToSearchHistory | public/app.js:120-126 | short queries change nothing; longer ones move to the front, and the history is stored |
| Client.StreamVerse.PlayChannel | public/app.js:328-345 | no channel at the index: nothing changes. Otherwise the view is counted, the channel becomes current with alternative index 0, a close is forgotten, and the fetch is scheduled |
| Client.StreamVerse.LoadChannelAlternatives | public/app.js:347-356 | the alternatives become the fetched list, or empty on any failure |
| Client.StreamVerse.PlayChannelSource | public/app.js:359-389 | nothing after a close; otherwise the source plays, the error handler is set, and a load timeout is scheduled |
| Client.StreamVerse.ShowSwitchingMessage | public/app.js:438-441 | only the title changes |
| Client.StreamVerse.ShowStreamError | public/app.js:443-446 | the title becomes `Stream Error` and the message is alerted |
| Client.StreamVerse.HandleStreamFailure | public/app.js:391-425 | nothing after a close; otherwise it schedules the next alternative and advances the index by exactly one, or else schedules the next channel when auto-switch is on, or else alerts the error. An in-range index stays in range |
| Client.StreamVerse.TryNextChannel | public/app.js:427-436 | nothing after a close or with no channels; otherwise plays channel (i+1) mod n, or alerts `No more channels available.` when that is the current one |
| Client.StreamVerse.CloseVideoPlayer | public/app.js:448-459 | marks the player closed, hides and empties the video, and resets index, channel and alternatives; scheduled callbacks remain |
| Client.StreamVerse.FinishPlayChannel | public/app.js:340-344 | the alternatives are stored even after a close; the channel plays only if the player is still open |
| Client.StreamVerse.FirePlayerError | public/app.js:375-380 | a video error after a close changes nothing; otherwise it is a stream failure |
| Client.StreamVerse.FireLoadTimeout | public/app.js:383-388 | a stream failure only if nothing has loaded and the player is open |
| Client.StreamVerse.FireSwitchSource | public/app.js:404-408 | the scheduled alternative plays only if the player is open |
| Client.StreamVerse.FireSwitchChannel | public/app.js:417-421 | the next channel is tried only if the player is open |

## Left out

- Network, files and process:
  - the HTTP requests (axios, `fetch`) are parameters: a probe function and download outcomes;
  - the Express routing, `res.json`, `/api/health`, `/api/validation-status` and the catch-all route are left out;
  - `fs.writeFile`, `process.exit`, and the script's entry function `buildChannelsCache` are left out.
- Clock and timers:
  - the clock is a parameter `now`, one instant per call;
  - `lastRun` is that number, not an ISO string;
  - timers are scheduled callbacks that may run in any order; their delays (10 s, 1.5 s, 2 s) are not modelled.
- Concurrency:
  - each server handler and each `validateSomeSources` run is atomic, so requests do not interleave with a scan;
  - the `try/finally` of `validateSomeSources` has no exception path, because `validateUrl` catches every failure.
- Data and startup:
  - the server's `CHANNELS` catalog is a constructor parameter, not the literal data;
  - the startup timer that runs `validateSomeSources(80)` after 500 ms is left out;
  - a missing `sources`, `logo` or text field is modelled as the empty list or string, and values of other JavaScript types (`String(...)` conversions) are not modelled.
- Client outside the playback core:
  - the DOM rendering, `escapeHtml`, the category and source panels, `loadChannels` (the model keeps the channel list fixed), `loadData`, debouncing, `trackEngagement` and `videoPlayer.pause()` are left out;
  - local storage is modelled as the `stored…` fields, and JSON parsing is not modelled.
- Text:
  - strings are sequences of characters, not UTF-16 code units;
  - console logging is left out.
- Text.Lower: folds only ASCII letters, one code unit to one, while `toLowerCase` also folds non-ASCII letters and may change the length ("İ" becomes "i" plus U+0307). Names containing such letters (U+0130, U+212A and other non-ASCII capitals) can therefore get different group keys: the source keys "İZ TV" as "iz tv", in the same group as "IZ TV", while the model keys it as "z tv". Category normalisation and search matching differ the same way on such letters.
- Client.GetTypeIcon: type names that are inherited object properties (such as `toString`) give the inherited value in the source, not an icon; that case is not modelled.
- Client.StreamVerse.PlayChannelSource: the guard against a missing source is not modelled, because every caller passes one.
- Client.StreamVerse.HandleStreamFailure: keeps the alternative index in range only when it was already in range; a stale timeout between `playChannel` and the arrival of its alternatives can break that, so it is not a class invariant.
- Validation.Judge: every kind of request failure (timeout, network error, too many redirects) is one `Unreachable` outcome, reported as `timeout_or_network`.

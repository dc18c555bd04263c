# Unified social aggregator: the credential store, the YouTube feed and the request path

This project models the core of the unified social aggregator backend in Dafny and proves properties of that model. The aggregator lets a user sign in with a content provider (today only YouTube) and read one feed built from the provider's API.

- **The credential store.** The store holds users, social logins (a provider account with its OAuth2 tokens) and sessions. These operate on it:
  - the sign-in upsert of `AuthService.createOrUpdateUser`;
  - the lookups and the provider disconnect of `UserService`;
  - the lookup of the stored YouTube login in `YouTubeService.getAuthClient`, and the partial update its `'tokens'` handler writes when the OAuth2 client refreshes a token.
- **The YouTube feed.** Its parts are:
  - the channel ids of the subscriptions, capped at ten;
  - one search per channel, failing as a whole when one fails;
  - normalisation of each usable result into the unified envelope;
  - the sort by publication date;
  - the unsorted "most popular" chart.
- **The request path.** Its parts are:
  - the session cookie check of `SessionMiddleware.use`;
  - the request logger's url truncation, status colour table and severity rule;
  - the console logger's level gating and fixed-width line layout;
  - the front end's `formatDuration`, which turns the time part of an ISO 8601 duration (the designator format of section 4.4.3.2 of ISO 8601:2004) into `[hh:]mm:ss`.

## Model structure

One Dafny module per source file, plus three shared modules:

- **`Wrappers`**: `Option` and `Result`.
- **`Text`**: digit predicates.
- **`Store`**: the tables, as a datatype value `Tables` and as a class `Database` whose fields the ORM operations update in place. Each `Database` method is specified by a function on `Tables`. The store's constraints are the predicate `Consistent`: unique ids, unique emails, unique `(provider, providerId)`, and references to existing users.
- **`AuthService`, `UserService` and `YouTubeService`**: each service is a class over a `Database`. Every method's `ensures` ties its result and the new state to a specification function (`Upsert`, `Disconnect`, `AuthClientFor`, `ApplyTokens`, `SubscriptionVideos`, `RecommendedVideos`, …), or states the result directly against the tables. The properties are proved as lemmas about those functions.
- **The YouTube Data API, as a `YouTubeApi` value.** It is a record of four functions from a request to a response or an error. Date parsing is the `parseDate` parameter (`new Date(s).getTime()`).
- **The loops of `getSubscriptionVideos` and `getRecommendedVideos`.** They are methods with `for` loops (`CollectChannelIds`, `CollectVideos`, `CollectChart`), each proved equal to its specification function.
- **`SessionMiddleware`**: writes the `Request` and `Response` objects and calls a `Next` object that counts its calls. `now` is a parameter.
- **`Logger.CustomLogger`**: holds `logLevels` and the `output` written so far, one `Line` per write. Colours are tags on the parts of a line.
- **`RequestLogger`**: writes through a `CustomLogger`. The two `Date.now()` readings are parameters.
- **`FeedItem`**: models the regular expression `/PT(?:(\d+)H)?(?:(\d+)M)?(?:(\d+)S)?/` as:
  - a search for the first `"PT"`;
  - then three optional groups read from the text after it.

Facts about the code that shape the model:

- **Sort direction.** The subscription feed is sorted ascending, oldest first. The comparator at `packages/backend/src/youtube/youtube.service.ts:178-182` computes `key(a) - key(b)`; its local variable names are swapped.
- **No merged feed.** `packages/backend/src/feeds/feeds.controller.ts:25` and `:41` call `getUnifiedFeed` and `getYouTubeFeed`, but `packages/backend/src/feeds/feeds.service.ts` defines only `getMockFeed`. There is no merge of feeds and no fallback from subscriptions to the chart.
- **Logins per provider.** The nested upsert's key is `(provider, providerId)` (`packages/backend/src/auth/auth.service.ts:44-49`). Nothing stops one user from holding two youtube logins with different provider ids; the `findFirst` of `getAuthClient` (`packages/backend/src/youtube/youtube.service.ts:17-22`) takes the earlier one.
- **Token refresh.** The `'tokens'` handler (`packages/backend/src/youtube/youtube.service.ts:41-58`) is an event callback that the request does not await.
- **Cookie clearing.** The middleware clears the cookie itself on an unknown or expired session (`packages/backend/src/core/session.middleware.ts:34`).

## Model

| member | source | states |
|---|---|---|
| Store.FirstLogin | packages/backend/src/youtube/youtube.service.ts:17-22 | `findFirst`: the index of the earliest matching login; no earlier row matches; none exactly when no row matches |
| Store.FirstUser | packages/backend/src/user/user.service.ts:10-14 | `findUnique` on users: the index of the earliest matching user; none exactly when no user matches |
| Store.FirstSession | packages/backend/src/core/session.middleware.ts:23-26 | `findUnique` on sessions: the index of the earliest session with the id; none exactly when none has it |
| Store.FilterLogins | packages/backend/src/user/user.service.ts:33-40 | the rows whose match against the `where` equals `keep`, and nothing else; at most as many rows as the table |
| Store.FilterLoginsSnoc | packages/backend/src/user/user.service.ts:33-40 | one more row is appended to the result exactly when its match equals `keep` |
| Store.FilterLoginsAppend | packages/backend/src/user/user.service.ts:33-40 | filtering distributes over concatenation, so the kept rows stay in table order |
| Store.FilterDropsMatch | packages/backend/src/user/user.service.ts:51-56 | a row whose match differs from `keep` is dropped, so the result is strictly shorter |
| Store.UpdateLoginRow | packages/backend/src/youtube/youtube.service.ts:45-56 | `update where {id}` fails with RecordNotFound exactly when no row has the id. Otherwise the first row with the id becomes `ApplyUpdate` of itself and is returned; every other login, the users, the sessions and the id counter are kept |
| Store.FilterLoginsConsistent | packages/backend/src/user/user.service.ts:51-56 | filtering logins keeps unique ids, unique `(provider, providerId)` and valid owners |
| Store.CreateUserRowConsistent | packages/backend/src/auth/auth.service.ts:28-30 | creating a user whose email is not taken keeps the store consistent |
| Store.CreateLoginRowConsistent | packages/backend/src/auth/auth.service.ts:31-39 | creating a login for an existing user with an unused `(provider, providerId)` keeps the store consistent |
| Store.UpdateLoginRowConsistent | packages/backend/src/youtube/youtube.service.ts:45-56 | a token update keeps the store consistent |
| Store.DeleteLoginRowsConsistent | packages/backend/src/user/user.service.ts:51-56 | `deleteMany` keeps the store consistent |
| Store.Database.FindUniqueUser | packages/backend/src/user/user.service.ts:10-14 | the loop returns the first user matching the `where`, or none |
| Store.Database.FindFirstLogin | packages/backend/src/youtube/youtube.service.ts:17-22 | the loop returns the first login matching the `where`, or none |
| Store.Database.FindManyLogins | packages/backend/src/user/user.service.ts:33-40 | the loop returns exactly the matching logins in table order |
| Store.Database.FindUniqueSession | packages/backend/src/core/session.middleware.ts:23-26 | the loop returns the session with the id, or none |
| Store.Database.CreateUser | packages/backend/src/auth/auth.service.ts:28-30 | appends one user with the next id and the given email and display name |
| Store.Database.CreateLogin | packages/backend/src/auth/auth.service.ts:31-39 | appends one login with the next id, the owner and the given provider, provider id, tokens and expiry |
| Store.Database.UpdateLogin | packages/backend/src/youtube/youtube.service.ts:45-56 | the new state and result are those of `UpdateLoginRow`; on RecordNotFound the state is unchanged |
| Store.Database.DeleteManyLogins | packages/backend/src/user/user.service.ts:51-56 | the new state drops exactly the matching logins; the count is the number removed |
| AuthService.Upsert | packages/backend/src/auth/auth.service.ts:10-66 | no email is an error. An unknown email creates one user and one login carrying the profile's values and advances the id counter by two, unless the key is taken by another account. A known email adds no user, returns the stored user unchanged, and either refreshes the user's login in place with the id counter kept, or appends exactly one login owned by the user and advances the id counter by one |
| AuthService.UpsertConsistent | packages/backend/src/auth/auth.service.ts:24-65 | a successful sign-in keeps unique user ids and emails, unique `(provider, providerId)` and valid owners |
| AuthService.UpsertIdempotent | packages/backend/src/auth/auth.service.ts:24-65 | signing in twice with the same profile gives the same store and the same user as signing in once |
| AuthService.UpsertSettled | packages/backend/src/auth/auth.service.ts:41-64 | when the user's login already holds the profile's tokens, the upsert returns the user and leaves the store as it was |
| AuthService.SettledNewUser | packages/backend/src/auth/auth.service.ts:28-39 | after creating a user, the email finds that user and the new login is the user's first login for the key and holds the tokens |
| AuthService.SettledKnownLogin | packages/backend/src/auth/auth.service.ts:43-61 | after refreshing a known login, the user is returned and the login keeps its position and holds the tokens |
| AuthService.SettledNewLogin | packages/backend/src/auth/auth.service.ts:50-56 | after adding a login to a known user, the user is returned and the appended login is the user's first for the key |
| AuthService.UpsertKeepsLogins | packages/backend/src/auth/auth.service.ts:41-64 | a sign-in never removes a login and never changes a login's id, owner, provider or provider id |
| AuthService.UpsertOwnsLogin | packages/backend/src/auth/auth.service.ts:24-65 | after a successful sign-in the returned user owns a login with the profile's provider and provider id |
| AuthService.UpsertFindsUser | packages/backend/src/auth/auth.service.ts:24-27 | the returned user is the one the new store finds by the profile's email |
| AuthService.SecondProviderMerges | packages/backend/src/auth/auth.service.ts:24-65 | a second provider under the same email ends with one user owning both logins and no user added |
| AuthService.AuthService.CreateOrUpdateUser | packages/backend/src/auth/auth.service.ts:10-66 | on a consistent store, the store becomes what `Upsert` gives and stays consistent, and the result is its user; on an error the store is unchanged |
| UserService.Disconnect | packages/backend/src/user/user.service.ts:31-64 | an unknown user gives UserNotFound and a user without such a login gives NoProviderAccount. Success happens exactly when both exist; it removes every login of that user and provider, keeps every other login and all users and sessions, and shrinks the table |
| UserService.DisconnectTwiceFails | packages/backend/src/user/user.service.ts:46-56 | a second disconnect of the same pair fails with NoProviderAccount |
| UserService.DisconnectConsistent | packages/backend/src/user/user.service.ts:51-56 | a disconnect keeps the store consistent |
| UserService.UserService.GetUserById | packages/backend/src/user/user.service.ts:10-14 | none exactly when no user has the id, never an error; otherwise a stored user with that id |
| UserService.UserService.GetUserWithAccounts | packages/backend/src/user/user.service.ts:16-29 | UserNotFound exactly when no user has the id; otherwise that user with exactly its logins, in table order |
| UserService.UserService.DisconnectAccount | packages/backend/src/user/user.service.ts:31-64 | on a consistent store, the store becomes what `Disconnect` gives and stays consistent, and the result is `true`; on either not-found error the store is unchanged |
| YouTubeService.AuthClientFor | packages/backend/src/youtube/youtube.service.ts:16-38 | fails with NoYouTubeAccount exactly when the user has no youtube login; otherwise the client is bound to the first such login, with its access token, and its refresh token and expiry only when they are truthy |
| YouTubeService.ApplyTokens | packages/backend/src/youtube/youtube.service.ts:41-58 | without an access token nothing changes. Otherwise: the access token is overwritten; refresh token and expiry change only when the payload carries them; no other row nor table is touched; it fails exactly when the login is gone |
| YouTubeService.ApplyTokensIdempotent | packages/backend/src/youtube/youtube.service.ts:41-58 | applying the same payload twice leaves the store as applying it once |
| YouTubeService.ApplyTokensConsistent | packages/backend/src/youtube/youtube.service.ts:41-58 | a token refresh keeps the store consistent |
| YouTubeService.Subscriptions | packages/backend/src/youtube/youtube.service.ts:63-79 | the lookup error, the API error, or the listed items; `[]` when the response has no items |
| YouTubeService.UserInfo | packages/backend/src/youtube/youtube.service.ts:81-100 | the lookup error, the API error, or the first channel; none exactly when the list is missing or empty |
| YouTubeService.ChannelIds | packages/backend/src/youtube/youtube.service.ts:113-122 | an id is collected exactly when some subscription carries it, with snippet, resourceId and a non-empty channelId; never more ids than subscriptions |
| YouTubeService.ChannelIdsSnoc | packages/backend/src/youtube/youtube.service.ts:113-122 | one more subscription adds its channel id at the end when it has one, and nothing otherwise |
| YouTubeService.ChannelIdsAppend | packages/backend/src/youtube/youtube.service.ts:113-122 | the ids keep listing order: collecting distributes over concatenation |
| YouTubeService.ChannelIdsAllPresent | packages/backend/src/youtube/youtube.service.ts:113-122 | when every subscription has a channel id, the ids are theirs one for one, in listing order |
| YouTubeService.LimitChannels | packages/backend/src/youtube/youtube.service.ts:124-125 | the first ten ids, or all of them when there are fewer |
| YouTubeService.ChannelIdsNone | packages/backend/src/youtube/youtube.service.ts:113-122 | subscriptions none of which carries a channel id give no ids |
| YouTubeService.SearchRequests | packages/backend/src/youtube/youtube.service.ts:106-143 | one search per channel for the first `min(10, n)` of the `n` collected channel ids, in listing order |
| YouTubeService.NoChannelIdNoRequest | packages/backend/src/youtube/youtube.service.ts:127-129 | no usable channel id means no search request |
| YouTubeService.FirstTenOfFifteen | packages/backend/src/youtube/youtube.service.ts:124-143 | fifteen subscriptions with channels give exactly the first ten searches, in order |
| YouTubeService.FetchAll | packages/backend/src/youtube/youtube.service.ts:134-145 | all responses, one per channel in order, or the error of the first failing search; it fails exactly when some search fails |
| YouTubeService.ThumbnailOf | packages/backend/src/youtube/youtube.service.ts:160-167 | non-empty exactly when the high or the default url is truthy; always `''`, the high url or the default url; the high url whenever it is truthy |
| YouTubeService.NormalizeSearchResult | packages/backend/src/youtube/youtube.service.ts:152-171 | a usable result becomes the envelope: id is the video id, platform youtube, type video, url is the watch prefix plus the id, text fields default to `''`, the thumbnail falls back, and there are no statistics |
| YouTubeService.NormalizeItems | packages/backend/src/youtube/youtube.service.ts:151-173 | a result is in the output exactly when it is usable, normalised; each a well-formed envelope; never more than the items |
| YouTubeService.NormalizeItemsSnoc | packages/backend/src/youtube/youtube.service.ts:151-173 | one more result is normalised at the end when it is usable, and dropped otherwise |
| YouTubeService.NormalizeItemsAppend | packages/backend/src/youtube/youtube.service.ts:151-173 | the kept results keep response order: normalising distributes over concatenation |
| YouTubeService.NormalizeResponses | packages/backend/src/youtube/youtube.service.ts:149-175 | a video is in the output exactly when it is a usable result of some response, normalised; each a well-formed envelope |
| YouTubeService.NormalizeResponsesSnoc | packages/backend/src/youtube/youtube.service.ts:146-175 | one more response contributes its normalised items at the end |
| YouTubeService.NormalizeResponsesAppend | packages/backend/src/youtube/youtube.service.ts:146-175 | the unsorted feed is channel by channel, item by item: normalising distributes over concatenation |
| YouTubeService.SubscriptionFeedShape | packages/backend/src/youtube/youtube.service.ts:102-182 | a served subscription feed is sorted by date and made of well-formed envelopes |
| YouTubeService.SubscriptionFeedFailFast | packages/backend/src/youtube/youtube.service.ts:134-145 | one failing channel search fails the whole call; when it is the first failing search, the call returns its error |
| YouTubeService.SubscriptionFeedEmpty | packages/backend/src/youtube/youtube.service.ts:106-129 | subscriptions without a usable channel id give `[]` and no search |
| YouTubeService.NormalizeVideo | packages/backend/src/youtube/youtube.service.ts:207-229 | the chart envelope: id defaults to `''`, but the url is built from the raw id, "undefined" when it is absent; statistics and duration are passed through |
| YouTubeService.NormalizeChart | packages/backend/src/youtube/youtube.service.ts:205-232 | exactly the chart items with a snippet, normalised |
| YouTubeService.NormalizeChartAppend | packages/backend/src/youtube/youtube.service.ts:205-232 | the chart is normalised item by item: order is the response's, with no sort |
| YouTubeService.NormalizeChartAll | packages/backend/src/youtube/youtube.service.ts:205-232 | when every item has a snippet, the i-th video is the i-th item's |
| YouTubeService.RecommendedVideos | packages/backend/src/youtube/youtube.service.ts:191-239 | the lookup error, the API error, or the normalised chart |
| YouTubeService.CollectChannelIds | packages/backend/src/youtube/youtube.service.ts:111-122 | the push loop yields `ChannelIds` |
| YouTubeService.CollectVideos | packages/backend/src/youtube/youtube.service.ts:146-175 | the nested push loops yield `NormalizeResponses` |
| YouTubeService.CollectChart | packages/backend/src/youtube/youtube.service.ts:203-232 | the push loop yields `NormalizeChart` |
| YouTubeService.YouTubeService.GetAuthClient | packages/backend/src/youtube/youtube.service.ts:16-61 | the client is `AuthClientFor` of the current store |
| YouTubeService.YouTubeService.OnTokens | packages/backend/src/youtube/youtube.service.ts:41-58 | on a consistent store, the store becomes what `ApplyTokens` gives and stays consistent; on failure it is unchanged |
| YouTubeService.YouTubeService.GetSubscriptions | packages/backend/src/youtube/youtube.service.ts:63-79 | the result is `Subscriptions` of the current store |
| YouTubeService.YouTubeService.GetUserInfo | packages/backend/src/youtube/youtube.service.ts:81-100 | the result is `UserInfo` of the current store |
| YouTubeService.YouTubeService.GetSubscriptionVideos | packages/backend/src/youtube/youtube.service.ts:102-189 | the result is `SubscriptionVideos` of the current store; `maxResults` is not read |
| YouTubeService.YouTubeService.GetRecommendedVideos | packages/backend/src/youtube/youtube.service.ts:191-239 | the result is `RecommendedVideos` of the current store |
| FeedVideos.InsertMembers | packages/backend/src/youtube/youtube.service.ts:178-182 | one insertion step adds exactly the one item |
| FeedVideos.InsertSorted | packages/backend/src/youtube/youtube.service.ts:178-182 | inserting into a list sorted by date keeps it sorted |
| FeedVideos.InsertStable | packages/backend/src/youtube/youtube.service.ts:178-182 | an inserted item goes before the items with its own date, and their order is kept |
| FeedVideos.SortByPublishedSorted | packages/backend/src/youtube/youtube.service.ts:178-182 | the sort is non-decreasing by date, a missing date counting as 0, and a permutation of its input |
| FeedVideos.SortByPublishedStable | packages/backend/src/youtube/youtube.service.ts:178-182 | items with the same date keep their relative order |
| SessionMiddleware.SessionUserExists | packages/backend/src/core/session.middleware.ts:23-26 | in a consistent store a session's user exists |
| SessionMiddleware.Decide | packages/backend/src/core/session.middleware.ts:17-39 | no or empty cookie: no decision. Authenticated exactly when the session exists and expires strictly after now; the user is the session's. Rejected exactly when the session is unknown or expired |
| SessionMiddleware.ExpiryInstantRejected | packages/backend/src/core/session.middleware.ts:28 | a session is rejected at its own expiry instant |
| SessionMiddleware.AcceptedEarlier | packages/backend/src/core/session.middleware.ts:28 | a session accepted now was accepted, with the same user, at any earlier instant |
| SessionMiddleware.SessionMiddleware.Use | packages/backend/src/core/session.middleware.ts:17-39 | the request and response change as `Decide` says: user and session id set, cookie cleared, or nothing. The store is unchanged and `next` is called exactly once |
| SessionMiddleware.Next.Call | packages/backend/src/core/session.middleware.ts:38 | calling `next` adds one to its call count |
| Logger.EmojiAndColourTotal | packages/backend/src/logger/logger.service.ts:10-25 | every level has an emoji and a colour; only the unlisted level takes the defaults |
| Logger.PadEnd | packages/backend/src/logger/logger.service.ts:28-30 | `padEnd`: the length is the larger of the two, the text is kept as a prefix, and the rest is spaces |
| Logger.RawContext | packages/backend/src/logger/logger.service.ts:27-30 | always fifteen characters: the context's first fifteen, then spaces |
| Logger.FormatContext | packages/backend/src/logger/logger.service.ts:27-32 | seventeen characters in brackets, magenta |
| Logger.PaddedLevel | packages/backend/src/logger/logger.service.ts:79 | eight characters: the upper-cased level, then spaces |
| Logger.MakeLine | packages/backend/src/logger/logger.service.ts:76-92 | the line holds the level's emoji and colour, the padded level, the context (empty when absent) and the message |
| Logger.AbsentContextIsBlank | packages/backend/src/logger/logger.service.ts:80 | an absent or empty context gives fifteen spaces in brackets |
| Logger.RenderLayout | packages/backend/src/logger/logger.service.ts:89-91 | a written line is emoji, level, context and message, separated by single spaces and ending in a newline, at fixed offsets |
| Logger.Emit | packages/backend/src/logger/logger.service.ts:46-74 | one line exactly when the level is enabled, none otherwise |
| Logger.CustomLogger.constructor | packages/backend/src/logger/logger.service.ts:6 | starts with all five levels and no output |
| Logger.CustomLogger.SetLogLevels | packages/backend/src/logger/logger.service.ts:42-44 | replaces the levels wholesale, output unchanged |
| Logger.CustomLogger.PrintMessage | packages/backend/src/logger/logger.service.ts:76-92 | appends exactly one line |
| Logger.CustomLogger.Log | packages/backend/src/logger/logger.service.ts:46-50 | appends the log line when the level is enabled, nothing otherwise |
| Logger.CustomLogger.Error | packages/backend/src/logger/logger.service.ts:52-56 | appends one error line with body message, newline and trace when enabled |
| Logger.CustomLogger.Warn | packages/backend/src/logger/logger.service.ts:58-62 | appends the warn line when enabled |
| Logger.CustomLogger.Debug | packages/backend/src/logger/logger.service.ts:64-68 | appends the debug line when enabled |
| Logger.CustomLogger.Verbose | packages/backend/src/logger/logger.service.ts:70-74 | appends the verbose line when enabled |
| RequestLogger.SlicePrefix | packages/backend/src/core/request.logger.ts:77 | `slice(0, end)`: a prefix, the whole text past the end, counted from the back for a negative end |
| RequestLogger.TruncateUrl | packages/backend/src/core/request.logger.ts:76-78 | a url within the limit is unchanged; a longer one keeps `limit - 3` characters plus "...", exactly the limit long when the limit is at least 3 |
| RequestLogger.TruncateUrlBounded | packages/backend/src/core/request.logger.ts:76-78 | with a limit of at least 3 the result never exceeds the limit and keeps the url's prefix |
| RequestLogger.TruncateUrlIdempotent | packages/backend/src/core/request.logger.ts:76-78 | truncating twice is truncating once |
| RequestLogger.SmallLimitOverruns | packages/backend/src/core/request.logger.ts:76-78 | a limit below 3 makes a truncated url longer than the limit |
| RequestLogger.NatToString | packages/backend/src/core/request.logger.ts:59-61 | the decimal text of a status or duration: digits only, no leading zero |
| RequestLogger.NatToStringRoundTrip | packages/backend/src/core/request.logger.ts:59-61 | reading the decimal text back gives the number |
| RequestLogger.IntToString | packages/backend/src/core/request.logger.ts:59-61 | the canonical decimal text of the status or duration: digits whose value is the number and with no leading zero; for a negative number a minus sign followed by such digits for its magnitude |
| RequestLogger.StatusColourTable | packages/backend/src/core/request.logger.ts:20-57 | exactly the eleven listed codes are coloured, each with its own colour |
| RequestLogger.SeverityFor | packages/backend/src/core/request.logger.ts:63-69 | error exactly from 500, warn exactly for 400-499, log exactly below 400 |
| RequestLogger.RequestLines | packages/backend/src/core/request.logger.ts:59-69 | one line exactly when the severity is enabled. A 5xx line has an empty context and the body message, newline, "HTTP"; any other line has context HTTP and the message |
| RequestLogger.LoggedUrlBounded | packages/backend/src/core/request.logger.ts:8 | the logged url never exceeds fifty characters, and a short url is logged whole |
| RequestLogger.RequestLogger.OnFinish | packages/backend/src/core/request.logger.ts:14-70 | appends `RequestLines` to the logger's output, levels unchanged |
| FeedItem.IndexOfPTFrom | packages/frontend/src/components/FeedItem.tsx:82 | the first "PT" at or after the position, none exactly when there is no "PT" |
| FeedItem.DigitRun | packages/frontend/src/components/FeedItem.tsx:82 | the greedy run of digits: all digits, ended by a non-digit or the end |
| FeedItem.Designated | packages/frontend/src/components/FeedItem.tsx:82 | one optional group: a non-empty digit string followed by its designator and the rest, or no capture with the text unchanged |
| FeedItem.PadStart2 | packages/frontend/src/components/FeedItem.tsx:85-87 | `padStart(2, "0")`: at least two long, never shortened, the text kept as the suffix after leading zeros |
| FeedItem.ClockShape | packages/frontend/src/components/FeedItem.tsx:85-89 | digits and colons only: one colon for `mm:ss`, two with hours |
| FeedItem.ClockSeconds | packages/frontend/src/components/FeedItem.tsx:87-89 | the output ends with a colon and the padded seconds, "0" by default |
| FeedItem.ClockHours | packages/frontend/src/components/FeedItem.tsx:85-89 | with hours the output starts with the padded hours and a colon; without, it is padded minutes, colon, padded seconds |
| FeedItem.FormatDuration | packages/frontend/src/components/FeedItem.tsx:80-90 | `""` exactly when there is no "PT"; otherwise digits and colons with two colons when hours matched, else one |
| FeedItem.DesignatedOn | packages/frontend/src/components/FeedItem.tsx:82 | a group reads back exactly the part written for it and leaves the rest |
| FeedItem.LaterPartsNoGroup | packages/frontend/src/components/FeedItem.tsx:82 | the text written for later groups never matches an earlier group |
| FeedItem.GroupsOfWritten | packages/frontend/src/components/FeedItem.tsx:82 | the groups of a written `PT[hH][mM][sS]` are its parts |
| FeedItem.MatchIsoTime | packages/frontend/src/components/FeedItem.tsx:82-83 | matching a written time part gives its parts back |
| FeedItem.FormatIsoTime | packages/frontend/src/components/FeedItem.tsx:80-90 | a written time part is formatted as the clock of its parts |
| FeedItem.FromFirstPT | packages/frontend/src/components/FeedItem.tsx:82 | only the text from the first "PT" is read: date designators before it never contribute |
| FeedItem.ExampleFull | packages/frontend/src/components/FeedItem.tsx:80-90 | "PT1H2M3S" gives "01:02:03" |
| FeedItem.ExampleSeconds | packages/frontend/src/components/FeedItem.tsx:80-90 | "PT45S" gives "00:45" |
| FeedItem.ExampleEmpty | packages/frontend/src/components/FeedItem.tsx:80-90 | "PT" gives "00:00" |
| FeedItem.ExampleLongMinutes | packages/frontend/src/components/FeedItem.tsx:86-89 | "PT125M" gives "125:00": long groups are not cut |
| FeedItem.ExampleWithDays | packages/frontend/src/components/FeedItem.tsx:82-83 | "P1DT2H3M4S" has no "PT" and gives "" |

## Left out

- The database engine and ORM are not modelled beyond first-match lookups over tables in row order. Generated ids come from a counter.
- The upsert carries only the constraint behaviour the code relies on. A `where` on an undefined email is an error (MissingUniqueKey). A create that would repeat `(provider, providerId)` is an error (UniqueConstraintViolation) that leaves the store unchanged, as a rolled-back transaction would.
- Errors are variants of `Error`, not exception objects with message texts. The `catch` blocks only log and rethrow, and their logging is not modelled.
- The service-internal Nest `Logger` calls (`logger.log` and `logger.error` inside the services) are not modelled; only `CustomLogger` itself is.
- The YouTube Data API, the OAuth2 client and the transport that decides when to emit `'tokens'` are foreign. The API is a parameter; the token event is the `OnTokens` call with its payload.
- Concurrency is not modelled. `Promise.all` is a sequential fail-fast fetch in channel order, and the un-awaited refresh handler is a separate call. Interleavings with a concurrent request or a disconnect are outside the model.
- Date parsing is the `parseDate` parameter. An unparseable date (NaN, which makes the comparator inconsistent) is not modelled; the sort key is an integer.
- `SessionMiddleware.Use`: `now` is a parameter in place of `new Date()`.
- `RequestLogger.RequestLogger.OnFinish`: the colour `StatusColourOf` picks for the status code is not recorded on the logged line, because the line's message is plain text. The two `Date.now()` readings are parameters. The method is called directly rather than registered as a 'finish' listener. The surrounding `use` and its `next()` call are not modelled.
- Terminal colour codes (`clc`, `chalk`) are tags, and the written text carries none. The two regex replaces of `colorizeMessage` only wrap text in colour codes, so the message text is kept as is.
- Strings are sequences of code points. JavaScript lengths count UTF-16 code units, so the fifty-character url bound and the fifteen-character context field are stated in code points.
- `YouTubeService.NormalizeVideo`: a missing chart id is written "undefined" in the url. A `null` id from the API is not distinguished from a missing one.
- `FeedItem.Designated`: its contract does not state that the captured digits are exactly the longest digit run. Exactness is proved for written durations by `DesignatedOn` and `GroupsOfWritten`.
- Uniqueness of one login per (user, provider) is not enforced, because the code does not enforce it. `getAuthClient` uses the first youtube login of the user.
- `YouTubeService.YouTubeService.GetRecommendedVideos`: the default `maxResults = 20` is dropped; callers pass `maxResults` explicitly.
- Only the front end's `formatDuration` is modelled. The rest of the front end, including `formatViewCount` (floating point) and the date display, is rendering.
- The routing layer, bootstrap and module wiring are not modelled. Neither is the passport strategy, which assembles the profile passed to `CreateOrUpdateUser`. The session middleware is not registered in the application module.
- The feeds service is a mock. The `getUnifiedFeed` and `getYouTubeFeed` the feeds controller calls are not defined in the code, so no merged feed or fallback is modelled.

# mangadex.py core, modelled in Dafny

mangadex.py is an asynchronous Python client for the MangaDex HTTP API. This project models its
core and proves properties of the model:

- **Rate limiter** (`RateLimiting`, ratelimiter.dfy). Each endpoint has a `RateLimiter`: a permit
  counter, a FIFO queue of suspended tasks, a queued-request counter, a `resetted` flag and at
  most one pending countdown. Its operations are acquire, release, reset, countdown completion
  and reboot. A registry keyed by `"METHOD path"` creates limiters and caches them forever. It
  picks each new limiter's policy from a fixed table of restricted endpoints, where the last
  matching entry wins, with 300 requests per 60 minutes as the fallback. Each coroutine is
  modelled as one atomic step; "## Left out" names the interleavings this does not capture. The
  class `RateLimiter` is proved against step functions on a `LimiterState` value.
- **Request loop** (`Http`, http_client.dfy). `HTTPClient.request` makes at most five attempts.
  What each attempt gets back is an input: a status with its body and rate-limit headers, an
  `OSError`, or an exception the loop does not catch. The sleeps are returned instead of awaited. The method `RetryLoop` is proved equal
  to the recursive specification `Run`, and lemmas state which answers are retried and which
  decide the outcome. `recreate_session` and `close_session` act on an explicit session field.
- **Routes** (`Routes`, `AuthRoutes`, `MangaRoutes`, `LegacyRoutes`). Every route constructor is
  a chain of checks that raise. Each check is a function returning the exception it raises, and
  it is proved against a predicate saying which values it accepts. `build_request` methods
  produce the request keyword arguments. For the manga search, the sent query is characterised
  key by key. The class-level `headers` dict that all routes share is a `SharedHeaders` object.
- **Small builders** (`MangaUtils`, `Iterators`). This covers the sort-order parameters, the
  per-language title and description tables, and the pagination iterator, whose HTTP fetch is
  an oracle function `server(limit, offset)`.
- **Errors and results** (`Errors`, `AuthResults`). This covers the exception hierarchy, the
  fields and message of `HTTPException`, and the truthiness and accessors of the authentication
  results.
- **Support modules**. `Python` holds run-time values, truthiness, `isinstance` and built-in
  exceptions. `MangaTypes` holds the enumerations. `Patterns` holds the date-time and e-mail
  regular expressions, `strftime` and the plain hexadecimal string form that `uuid.UUID`
  accepts. `Checks` holds the
  first-failing-element shape of the validation loops.

Python semantics are written out where they matter:

- `bool` counts as `int`;
- `None`, `0`, `""` and empty containers are falsy;
- an `Enum` member is identified by its value;
- `dict.get` gives `None` for a missing key;
- `x.value` on a non-member raises `AttributeError`;
- `uuid.UUID(None)` and `uuid.UUID` of a datetime raise `TypeError`, and any other non-string
  raises `AttributeError`.

## Model

| member | source | states |
|---|---|---|
| RateLimiting.LastMatchSpec | mangadex/http/experimental_ratelimiter.py:189-191 | the selection loop has no `break`, so the entry it leaves behind applies (same method, path starts with the entry's path) and no later entry applies; there is none exactly when no entry applies |
| RateLimiting.LastMatchAt | mangadex/http/experimental_ratelimiter.py:189-191 | converse: an applying entry that no later entry overrides is the one chosen |
| RateLimiting.SelectPolicy | mangadex/http/experimental_ratelimiter.py:189-195 | the loop over `_RESTRICTED_ENDPOINTS_LIMIT` plus the fallback yields the last matching entry, or 300 requests per 60 minutes for the path itself; limits and windows are positive |
| RateLimiting.LoginPolicy | mangadex/http/experimental_ratelimiter.py:33-60 | `POST /auth/login` gets its own entry: 30 requests per 60 minutes |
| RateLimiting.UnlistedPolicy | mangadex/http/experimental_ratelimiter.py:194-195 | `GET /manga` matches no entry and gets the global policy of 300 per 60 minutes for its own path |
| RateLimiting.PoliciesPositive | mangadex/http/experimental_ratelimiter.py:33-60 | every restricted entry allows at least one request per window of at least one minute |
| RateLimiting.NoLaterEntryForLogin | mangadex/http/experimental_ratelimiter.py:33-60 | no entry after the sixth applies to `POST /auth/login` |
| RateLimiting.NoLaterEntryForAccount | mangadex/http/experimental_ratelimiter.py:33-60 | no entry after the fifth applies to a POST path beginning `/ac` |
| RateLimiting.OverlappingPolicy | mangadex/http/experimental_ratelimiter.py:189-191 | where `/account/recover` and `/account/recover/{code}` both apply, the later entry is chosen |
| RateLimiting.NewLimiterValid | mangadex/http/experimental_ratelimiter.py:68-80 | a new limiter satisfies the invariant (permits non-negative, countdown pending exactly when not `resetted`, `_delay` unset) and `reset_time` is the policy's minutes times 60 |
| RateLimiting.InvAlwaysHolds | mangadex/http/experimental_ratelimiter.py:106-178 | in the atomic-step model, after any sequence of acquires, releases, countdown completions and reboots with a non-negative `requests_remaining`, the invariant still holds; in particular `_value` never goes below 0 |
| RateLimiting.PendingCountdownKept | mangadex/http/experimental_ratelimiter.py:119-130 | while a countdown is pending, acquires and releases never start or replace one: at most one countdown per window |
| RateLimiting.RebootReplacesCountdown | mangadex/http/experimental_ratelimiter.py:132-157 | reboot cancels any countdown, sets `_value` to exactly `requests_remaining`, keeps the queue, clears `resetted`, and starts one countdown for `retry_after` that later acquires and releases keep |
| RateLimiting.FreshLimiterAdmits | mangadex/http/experimental_ratelimiter.py:106-130 | from a new limiter, up to `MAX_REQUESTS` acquires are all granted without queueing; the first starts the one countdown, for `reset_time`, because `_delay` is never assigned |
| RateLimiting.AdmitsWhileCounting | mangadex/http/experimental_ratelimiter.py:119-124 | with permits to spare and a countdown pending, each acquire takes exactly one permit and queues nothing |
| RateLimiting.ExhaustedLimiterQueues | mangadex/http/experimental_ratelimiter.py:108-117 | once the permits are gone, an acquire is not granted: the caller goes to the back of the queue, `_requests_queued` rises by one, `_value` stays 0 |
| RateLimiting.QueuedCountUnchanged | mangadex/http/experimental_ratelimiter.py:108-124 | granted acquires do not change `_requests_queued` |
| RateLimiting.CountdownWakesInOrder | mangadex/http/experimental_ratelimiter.py:165-169 | a completed countdown refills `_value` to the limit, sets `resetted`, clears the countdown, and removes exactly `limit - value` waiters from the head, in arrival order |
| RateLimiting.ResetAsWrittenNeverStops | mangadex/http/experimental_ratelimiter.py:165-169 | as written, `_reset` entered with `_value` above the limit does not finish within any number of rounds |
| RateLimiting.ResetAsWrittenStops | mangadex/http/experimental_ratelimiter.py:165-169 | at or below the limit the loop stops at the limit after `limit - value` rounds |
| RateLimiting.RateLimiter.constructor | mangadex/http/experimental_ratelimiter.py:68-80 | the new object's state is `NewLimiter(policy)`, with the policy's method and path |
| RateLimiting.RateLimiter.Acquire | mangadex/http/experimental_ratelimiter.py:106-124 | one pass of acquire: with `_value <= 0` the caller is queued and not granted; otherwise one permit is taken, and a countdown starts if `resetted` was set |
| RateLimiting.RateLimiter.StartCountdown | mangadex/http/experimental_ratelimiter.py:126-130 | clears `resetted` and records the one pending countdown with its delay |
| RateLimiting.RateLimiter.WakeUpNext | mangadex/http/experimental_ratelimiter.py:169 | the head waiter, if any, is removed and returned; nothing else changes |
| RateLimiting.RateLimiter.WakeUpAll | mangadex/http/experimental_ratelimiter.py:159-163 | every waiter is removed and returned in queue order; the counters, flag and countdown are unchanged |
| RateLimiting.RateLimiter.Reset | mangadex/http/experimental_ratelimiter.py:165-173 | corrected reset: the new state is `ResetStep` of the old one, so the count reaches the limit and one waiter is woken per step |
| RateLimiting.RateLimiter.ResetWithoutNotify | mangadex/http/experimental_ratelimiter.py:155-157 | raises `_value` to `limit` and touches nothing else |
| RateLimiting.RateLimiter.CountdownFired | mangadex/http/experimental_ratelimiter.py:85-88 | after the sleep, reset and then `resetted.set()`: the state becomes `CountdownStep` of the old one |
| RateLimiting.RateLimiter.RebootRateLimiter | mangadex/http/experimental_ratelimiter.py:132-153 | the state becomes `RebootStep(old, requests_remaining, retry_after)` |
| RateLimiting.RateLimiter.Release | mangadex/http/experimental_ratelimiter.py:175-178 | `_requests_queued` drops by one only when positive; `_value` and everything else is unchanged |
| RateLimiting.Registry.constructor | mangadex/http/experimental_ratelimiter.py:12 | the registry starts empty |
| RateLimiting.Registry.GetRateLimiter | mangadex/http/experimental_ratelimiter.py:183-197 | for a known `"method path"` key it returns the cached limiter and changes nothing; for a new key it returns a fresh limiter with the key's policy, added under the key; entries are never removed or replaced |
| Http.ErrorClass | mangadex/http.py:60-72 | status 500 and above gives `ServerError`, 403 gives `Forbidden`, anything else `HTTPException` (other 2xx codes included); all are `HTTPException` subclasses |
| Http.Failure | mangadex/http.py:60-72 | a failing status raises the chosen class built from the JSON object; a body that is not an object raises `AttributeError` |
| Http.Run | mangadex/http.py:37-79 | at most five attempts; giving up raises `RuntimeError` after all five with one sleep each; returning means the last attempt got 200, and its body is returned; an exception the loop does not catch (a bad header for `float`, a body that is not JSON, an aiohttp error that is not an `OSError`) ends it at once |
| Http.RetryLoop | mangadex/http.py:37-79 | the `for attempt in range(5)` loop computes exactly `Run` from attempt 0 with `delay` unbound, and every attempt sends the same parameters |
| Http.FirstDecidingAnswer | mangadex/http.py:42-72 | retried answers only postpone: the first answer that is an escaping exception or a status other than 429 decides the outcome, by that exception or by its status alone, after exactly that many attempts |
| Http.AllRetriedGivesUp | mangadex/http.py:37-79 | when every remaining answer is a 429 with a delay or an `OSError`, the loop raises `RuntimeError` after the fifth attempt, having slept once per attempt |
| Http.EscapeAfterRetry | mangadex/http.py:37-79 | an `OSError` then an uncaught exception: one sleep of 1 second, then that exception after two attempts |
| Http.NetworkDownBacksOff | mangadex/http.py:74-79 | five `OSError`s sleep 1, 3, 5, 7 and 9 seconds, then raise `RuntimeError` |
| Http.UnboundDelay | mangadex/http.py:42-53 | a first 429 with neither header finds `delay` unbound (`UnboundLocalError`) after one attempt |
| Http.DelayCarriedOver | mangadex/http.py:42-53 | a header-less 429 after one that set a delay waits that same delay again |
| Http.MangaDexHeaderFirst | mangadex/http.py:44-50 | `x-ratelimit-retry-after` wins over `Retry-After` and becomes a wait relative to the clock |
| Http.RunRetries | mangadex/http.py:42-53 | an `OSError`, or a 429 with a delay, costs one attempt and one sleep (`1 + 2 * attempt`, or the delay) and hands the delay in force to the next attempt |
| Http.RunStops | mangadex/http.py:39-74 | any other answer ends the loop after one attempt and no sleep: the exception itself for one the `except OSError` does not catch, `UnboundLocalError` for a 429 without a delay, the body for 200, the class chosen by status otherwise |
| Http.ForbiddenNotRetried | mangadex/http.py:65-67 | a first answer of 403 whose error object has a string detail ends the loop at once, without sleeping, with `Forbidden`, whose message is `detail (code: 403)` |
| Http.HTTPClient.constructor | mangadex/http.py:16-18 | a new client has no session |
| Http.HTTPClient.CreateSession | mangadex/http.py:20-21 | installs a new, open session |
| Http.HTTPClient.RecreateSession | mangadex/http.py:23-27 | afterwards an open session exists: an open one is kept, and a missing or closed one is replaced by a new one |
| Http.HTTPClient.CloseSession | mangadex/http.py:29-31 | closes the session if there is one, and keeps the closed object |
| Http.HTTPClient.Request | mangadex/http.py:20-79 | an open session is kept, and a missing or closed one is replaced by exactly one new open session; the route's parameters are built once (their error is raised before any attempt), then the outcome, the sleeps and the attempts are those of `Run`, each attempt sending the same parameters |
| Errors.Base | mangadex/errors.py:1-30 | the direct base class of each exception class; the hierarchy is well founded |
| Errors.LibraryErrorsAreNotOSErrors | mangadex/errors.py:1-30 | every library error is a `MangaDexException`, and through `BaseException` neither an `Exception` nor an `OSError`, so the request loop never retries one; the HTTP errors are `HTTPException`, `ServerError` and `Forbidden` |
| Errors.NewHTTPError | mangadex/errors.py:13-20 | `id`, `status`, `title`, `detail` and `context` are the error object's entries, `None` when missing |
| Errors.ForbiddenMessage | mangadex/errors.py:15-22 | a `Forbidden` built from an error object with a string detail and status 403 has the message `detail (code: 403)`, and a missing `context` is `None` |
| Errors.ForbiddenStatusText | mangadex/errors.py:21-22 | `str(403)` is `"403"` |
| Python.NatToString | mangadex/errors.py:21-22 | `str` of a natural number is a non-empty run of decimal digits |
| Python.ParseNatToString | mangadex/errors.py:21-22 | reading the digits of `str(n)` back gives `n` |
| AuthResults.GetAttr | mangadex/http/result/auth.py:12-13 | `.get` succeeds exactly on a dict and gives the entry, or `None` when it is missing; any other value raises `AttributeError` |
| AuthResults.AuthResultTruth | mangadex/http/result/auth.py:12-13 | an `AuthResult` is true exactly when `data['result'] == 'ok'` |
| AuthResults.CheckTokenTruth | mangadex/http/result/auth.py:31-33 | `bool()` of a `CheckTokenResult` is `data['isAuthenticated']` when that is a bool, and raises `TypeError` otherwise, a missing entry included |
| AuthResults.TokenEntry | mangadex/http/result/auth.py:15-26 | `session_token` and `refresh_token` are the `session` and `refresh` entries of `data['token']` |
| AuthResults.DataEntry | mangadex/http/result/auth.py:35-49 | `roles`, `permissions` and `message` are the data entries of the same name |
| AuthResults.TruthinessRulesDiffer | mangadex/http/result/auth.py:8-41 | an `ok` body with `isAuthenticated` false is a true `AuthResult` but a false `CheckTokenResult`; without `isAuthenticated`, `bool()` of the latter raises |
| AuthResults.LoginTokensRead | mangadex/http/result/auth.py:15-29 | a login body with both tokens is true and gives both tokens back |
| Routes.MethodName | mangadex/routes/base.py:31-41 | the four method classes carry exactly `GET`, `POST`, `PUT` and `DELETE` |
| Routes.BuildRequest | mangadex/routes/base.py:17-22 | the method of the subclass, the URL `BASE_URL + path`, and the shared headers; nothing else |
| Routes.BuildRequestDistinguishes | mangadex/routes/base.py:17-41 | distinct methods give distinct method strings, and the URL determines the path |
| Routes.SharedHeaders.constructor | mangadex/routes/base.py:15 | the headers start with only `User-Agent` |
| Routes.SharedHeaders.SetAuthToken | mangadex/routes/base.py:24-29 | a non-string token raises `ValueError` before any change; otherwise `Authorization` becomes `Bearer <token>` and every other entry is kept |
| Routes.AuthorizationHeader | mangadex/routes/base.py:29 | the token can be read back from the header, and `User-Agent` survives |
| AuthRoutes.NewLogin | mangadex/routes/auth.py:12-47 | accepted exactly when the password is a string of 8 to 1024 characters, username and email are not both `None`, a truthy username is a string of at most 64 characters, and a truthy email is a string matching the e-mail pattern; each failure in check order raises its own message: non-string, short and long password, no identity, non-string and overlong username, non-string e-mail, e-mail not matching |
| AuthRoutes.LoginRequest | mangadex/routes/auth.py:49-62 | a POST to `/auth/login` whose JSON keys are `password`, plus `username` and `email` exactly when truthy, with their given values |
| AuthRoutes.CheckToken | mangadex/routes/auth.py:64-71 | a non-string token raises and leaves the headers alone; otherwise the shared headers get the bearer token and a bodiless GET to `/auth/check` carries them |
| AuthRoutes.Logout | mangadex/routes/auth.py:73-80 | as `CheckToken`, with a POST to `/auth/logout` |
| AuthRoutes.RefreshToken | mangadex/routes/auth.py:82-93 | accepted exactly for a string token, which is the single JSON entry of a POST to `/auth/refresh` |
| AuthRoutes.EmptyUsernameLogin | mangadex/routes/auth.py:26-36 | an empty username passes the identity check and the username check |
| AuthRoutes.PasswordLengthBounds | mangadex/routes/auth.py:14-22 | with a valid username, a password is accepted exactly when its length is from 8 to 1024 |
| Checks.FirstErrorNone | mangadex/routes/manga.py:62-70 | a validation loop raises nothing exactly when every element passes |
| Checks.FirstErrorFirst | mangadex/routes/manga.py:62-70 | when the loop raises, it raises the error of an element all of whose predecessors pass |
| Patterns.PadDigits | mangadex/routes/manga.py:339-351 | zero-padded fields have exactly the requested width and only digits |
| Patterns.Strftime | mangadex/routes/manga.py:339-351 | `strftime('%Y-%m-%dT%H:%M:%S')` has 19 characters |
| Patterns.StrftimeMatchesPattern | mangadex/routes/manga.py:217 | a datetime formatted by `build_request` matches the date-time pattern the constructor applies to strings |
| Patterns.LastAt | mangadex/routes/auth.py:40 | the last `@` of a string, where the e-mail pattern splits it |
| MangaTypes.StatusValueTable | mangadex/types/manga.py:4-8 | the status values are exactly `ongoing`, `completed`, `hiatus`, `cancelled`, one per member |
| MangaTypes.RatingValueTable | mangadex/types/manga.py:10-14 | the content-rating values are exactly `safe`, `suggestive`, `erotica`, `pornographic`, one per member |
| MangaTypes.RelationshipValueTable | mangadex/types/manga.py:59-68 | the relationship values are exactly the nine listed, one per member |
| MangaUtils.OrderKeysDistinct | mangadex/utils/manga.py:18-41 | the seven camelCase keys are distinct |
| MangaUtils.OrderFields | mangadex/utils/manga.py:18-41 | the seven arguments, each beside its camelCase key |
| MangaUtils.TruthyEntries | mangadex/utils/manga.py:18-41 | inserting only truthy values under distinct keys: a key is present exactly when its value is truthy, and then holds it |
| MangaUtils.OrderParams | mangadex/utils/manga.py:18-41 | `params` holds exactly the truthy arguments, under `title`, `year`, `createdAt`, `updatedAt`, `latestUploadedChapter`, `followedCount`, `relevance`; the `MangaListOrder` of mangadex/types/manga.py (lines 34-57) builds the same map |
| MangaUtils.DefaultOrder | mangadex/utils/manga.py:14-33 | with no arguments, `params == {'latestUploadedChapter': 'desc'}` |
| MangaUtils.WireInjective | mangadex/utils/manga.py:53 | distinct languages have distinct `.value`s, so no title is lost when the keys are converted |
| MangaUtils.WireKeyed | mangadex/utils/manga.py:50-54 | the table keyed by the languages' values: one key per stored language, each holding that language's entry |
| MangaUtils.MangaTitles.constructor | mangadex/utils/manga.py:44-45 | exactly one title, under the given language |
| MangaUtils.MangaTitles.AddTitle | mangadex/utils/manga.py:47-48 | sets or replaces only that language's title |
| MangaUtils.KeyByWire | mangadex/utils/manga.py:50-54 | the loop over `.items()` returns `WireKeyed(m)`: each language's entry under its value, one entry per language |
| MangaUtils.MangaTitles.GetValue | mangadex/utils/manga.py:50-54 | returns `WireKeyed(titles)`, with one entry per stored language |
| MangaUtils.MangaDescriptions.constructor | mangadex/utils/manga.py:57-58 | exactly one description, under the given language |
| MangaUtils.MangaDescriptions.AddDescription | mangadex/utils/manga.py:60-61 | sets or replaces only that language's description; the table stays non-empty |
| MangaUtils.MangaDescriptions.GetValue | mangadex/utils/manga.py:63-67 | as written: iterating the keys and unpacking a language member raises `TypeError`; it requires the table invariant that the constructor and `add_description` keep (never empty) |
| MangaUtils.MangaDescriptions.IntendedGetValue | mangadex/utils/manga.py:63-67 | `getvalue` iterating `.items()` as meant: returns `WireKeyed(descriptions)`, every description under its language's value |
| MangaUtils.IntendedDescriptionsValue | mangadex/utils/manga.py:63-67 | what `getvalue` of a one-description table is meant to return: the description under the English code |
| MangaUtils.MangaLinks.constructor | mangadex/utils/manga.py:69-71 | a new `MangaLinks` has no links |
| Iterators.Chunk | mangadex/iterators.py:41 | a request asks for `min(limit, 100)` items: at least 1, at most 100 and at most the limit |
| Iterators.DrainBounded | mangadex/iterators.py:38-50 | against a server that never returns more than it is asked for, iteration never yields more than the limit |
| Iterators.DrainNextPage | mangadex/iterators.py:41-48 | after a non-empty page the next request starts one chunk further on, whatever the page held |
| Iterators.SliceServed | mangadex/iterators.py:41-45 | within the list, the slicing server returns the next `min(chunk, remaining)` items |
| Iterators.DrainSlicing | mangadex/iterators.py:38-50 | against a server slicing one list, iteration from offset `o` with limit `n` yields exactly the `n` items from `o` on, or fewer when the list runs out |
| Iterators.DrainPast | mangadex/iterators.py:46 | past the end of that list nothing is yielded |
| Iterators.MangaIterator.constructor | mangadex/iterators.py:9-14 | the given limit, offset 0, an empty queue |
| Iterators.MangaIterator.FillData | mangadex/iterators.py:38-50 | fetches only when `limit > 0`, asking for `min(limit, 100)` at the offset; a non-empty page is queued in order and moves `limit` down and `offset` up by the chunk asked for; an empty page changes nothing; `limit + offset` is kept |
| Iterators.MangaIterator.Next | mangadex/iterators.py:19-26 | fetches only when the queue is empty, returns the head, and stops when the queue is still empty after the fetch |
| Iterators.MangaIterator.Flatten | mangadex/iterators.py:28-36 | returns everything queued, then every page the server gives, in order; the queue ends empty |
| MangaRoutes.LimitCheck | mangadex/routes/manga.py:41-44 | `limit` passes exactly when it is an int (a bool counts) from 1 to 100; a non-int raises `limit must be int` |
| MangaRoutes.OffsetCheck | mangadex/routes/manga.py:48-52 | `offset` passes exactly when falsy or a positive int |
| MangaRoutes.KindCheck | mangadex/routes/manga.py:56-58 | a truthy `title` must be a str, and a truthy `year` an int (lines 84-86); otherwise it raises the given message |
| MangaRoutes.StrListCheck | mangadex/routes/manga.py:62-80 | `authors` and `artists` pass exactly when falsy or a list or tuple of strings |
| MangaRoutes.TagsCheck | mangadex/routes/manga.py:90-117 | the tag lists pass exactly when falsy or a list or tuple of UUID strings |
| MangaRoutes.NonStringTagsUncaught | mangadex/routes/manga.py:90-117 | a non-string tag is not caught by `except ValueError`: a datetime tag raises `TypeError`, an int tag `AttributeError` |
| MangaRoutes.ModeCheck | mangadex/routes/manga.py:103-122 | a tag mode passes exactly when it is the string `AND` or `OR` |
| MangaRoutes.StatusCheck | mangadex/routes/manga.py:126-133 | corrected status check: passes exactly when falsy, a `MangaStatus` member, or one of the status values |
| MangaRoutes.StatusCheckAsWritten | mangadex/routes/manga.py:126-133 | as written: every truthy status raises `NameError` on the undefined `Status` |
| MangaRoutes.StatusAsWrittenRefusesMembers | mangadex/routes/manga.py:126-133 | `MangaStatus.PAUSED` and `'hiatus'` pass the corrected check and raise as written |
| MangaRoutes.LanguageItemCheck | mangadex/routes/manga.py:139-149 | a language element passes exactly when it is a `MangaDexLanguage` member or one of the language codes |
| MangaRoutes.LanguageListCheck | mangadex/routes/manga.py:139-183 | each language filter passes exactly when falsy or a list or tuple of languages |
| MangaRoutes.IdsCheck | mangadex/routes/manga.py:187-198 | `ids` passes exactly when falsy or a list (a tuple is refused) of at most 100 UUID strings |
| MangaRoutes.ContentRatingCheck | mangadex/routes/manga.py:202-214 | always checked: passes exactly when a list or tuple of `ContentRating` members; a string element raises `AttributeError`, because the allowed values are read from the elements themselves |
| MangaRoutes.DateCheckAccepts | mangadex/routes/manga.py:217-240 | a date passes exactly when falsy, a datetime, or a string matching the date-time pattern |
| MangaRoutes.OrderCheck | mangadex/routes/manga.py:244-246 | `order` passes exactly when falsy or a `MangaListOrder` |
| MangaRoutes.IncludesCheck | mangadex/routes/manga.py:250-263 | `includes` passes exactly when falsy or a list or tuple of `Relationship` members |
| MangaRoutes.NewMangaList | mangadex/routes/manga.py:17-264 | the constructor with the corrected status check: construction succeeds exactly when every argument passes its check, and then keeps the arguments; a non-int limit raises first |
| MangaRoutes.NewMangaListAsWritten | mangadex/routes/manga.py:17-264 | the constructor as written: it succeeds exactly when every other argument passes and `status` is falsy, and then keeps the arguments |
| MangaRoutes.AsWrittenDiffersOnStatus | mangadex/routes/manga.py:126-133 | the two constructors agree whenever `status` is falsy, or an earlier argument already raises; otherwise the written one raises `NameError` |
| MangaRoutes.ChecksInOrder | mangadex/routes/manga.py:17-264 | checks run in argument order: when the arguments pass with an empty content-rating list and no dates, order or includes, a bad content rating raises its own error, whatever the dates, order and includes are |
| MangaRoutes.WireItems | mangadex/routes/manga.py:301-337 | each converted element is the member's `.value`, or the string itself |
| MangaRoutes.ConvertItems | mangadex/routes/manga.py:301-308 | the `append` loop produces exactly `WireItems` of its input |
| MangaRoutes.CollectSpec | mangadex/routes/manga.py:266-363 | assignments to distinct keys: a key is present exactly when its assignment is made, and then holds its value; no other key appears |
| MangaRoutes.AcceptableIsBuildable | mangadex/routes/manga.py:202-214 | accepted arguments have the shapes `build_request` iterates over |
| MangaRoutes.Entries | mangadex/routes/manga.py:266-363 | the twenty assignments of `build_request`, made to the twenty query keys in source order |
| MangaRoutes.BuildRequest | mangadex/routes/manga.py:266-365 | a GET on `/manga` with the shared headers and no JSON body; its `params` is `Query(a)`, characterised key by key by the lemmas below |
| MangaRoutes.Assign | mangadex/routes/manga.py:266-363 | making the assignments one after another into a fresh dict gives `Collect` of them |
| MangaRoutes.QueryKeysDistinct | mangadex/routes/manga.py:266-363 | the twenty query keys are distinct |
| MangaRoutes.QueryEntries | mangadex/routes/manga.py:266-363 | each query key is present exactly when its assignment is made, and holds its value |
| MangaRoutes.SentAt | mangadex/routes/manga.py:266-363 | each assignment's key is in the query exactly when the assignment is made, and then holds its value |
| MangaRoutes.QueryKeysBounded | mangadex/routes/manga.py:266-363 | only the twenty query keys are ever sent |
| MangaRoutes.QuerySearchFields | mangadex/routes/manga.py:271-283 | `limit` is always sent; `offset`, `title`, `authors[]` and `artists[]` are sent as given exactly when truthy |
| MangaRoutes.QueryTagFields | mangadex/routes/manga.py:285-296 | both tag modes are always sent; `year` and both tag lists are sent as given exactly when truthy |
| MangaRoutes.QueryLanguageFields | mangadex/routes/manga.py:298-334 | `status[]` and `ids[]` are sent as given when truthy; `originalLanguage[]` carries the converted codes; `excludedOriginalLanguage[]` and `availableTranslatedLanguage[]` carry the raw field, each exactly when truthy |
| MangaRoutes.QueryFilterFields | mangadex/routes/manga.py:331-363 | `contentRating[]` is always sent, converted; the dates are formatted and `order` is sent as its `params`, each exactly when truthy; `includes[]` is the empty list exactly when `includes` is truthy |
| MangaRoutes.SentRatingsAreValues | mangadex/routes/manga.py:331-337 | for accepted arguments, `contentRating[]` is a list of content-rating value strings |
| MangaRoutes.SentDatesMatchPattern | mangadex/routes/manga.py:339-351 | an accepted date is sent in the date-time format, whichever form it was given in |
| MangaRoutes.IntendedIncludes | mangadex/routes/manga.py:356-363 | corrected includes: one relationship value string per included relationship |
| MangaRoutes.IncludesDropped | mangadex/routes/manga.py:356-363 | as written, a non-empty `includes` sends `includes[] == []`, while the corrected list is non-empty |
| LegacyRoutes.LegacyMethodName | mangadex/routes.py:13-23 | the method strings of this module, where the delete class sends `DEL` |
| LegacyRoutes.DeleteSpelling | mangadex/routes.py:22-23 | the delete spelling differs from the `DELETE` of the newer routes |
| LegacyRoutes.LegacyLimitCheck | mangadex/routes.py:70-72 | `limit` passes exactly when it is an int, of any value |
| LegacyRoutes.LanguageValueCheck | mangadex/routes.py:164-172 | each language filter passes exactly when falsy, one `MangaDexLanguage` member or one code string; a list is refused |
| LegacyRoutes.LegacyIdsCheck | mangadex/routes.py:197-207 | `ids` passes exactly when falsy or a list of UUID strings, of any length |
| LegacyRoutes.IdsUncapped | mangadex/routes.py:197-207 | more than 100 valid ids pass here and are refused by the newer route |
| LegacyRoutes.LegacyOrderCheck | mangadex/routes.py:252-253 | as written: `order` passes exactly when it is a `MangaListOrder`, so `None` is refused |
| LegacyRoutes.LegacyIncludesCheck | mangadex/routes.py:256-270 | as written: `includes` passes exactly when falsy or a list or tuple of `ContentRating` members |
| LegacyRoutes.NewLegacyMangaList | mangadex/routes.py:26-270 | succeeds exactly when every argument passes its check; keeps every argument but `order`, and keeps `includes` only when truthy |
| LegacyRoutes.DefaultsRejected | mangadex/routes.py:28-67 | the constructor's own defaults raise `order must be a MangaListOrder`, while the newer route accepts them |
| LegacyRoutes.SingleRelationshipIncludes | mangadex/routes.py:256-270 | a one-relationship list of includes is refused by this module's check and accepted by the newer one |
| LegacyRoutes.RelationshipIncludesRejected | mangadex/routes.py:256-270 | a `Relationship` member among the includes is refused here and accepted by the newer route |
| LegacyRoutes.LegacyBuildRequest | mangadex/routes.py:7-11 | `build_request` is inherited from `BaseRoute` and always raises `NotImplementedError` |

## Left out

- Concurrency and asyncio internals. The locks, the event loop, futures and task scheduling are
  left out, and so are the cancellation handler of `_wait` (mangadex/http/experimental_ratelimiter.py:91-99)
  and the futures of `_create_waiter`. A waiter is an id in a sequence, waking one means
  removing the head, and each locked section is one atomic method. Cancellation while queued
  is not modelled.
- Python's `asyncio.Semaphore` base class is not part of this model. `_wake_up_next` follows
  the removal of the head waiter.
- The `print` in `acquire` and all logging have no effect on state, so they are left out.
- Real time. Sleeps are returned as integers instead of awaited, and the clock (`time.time()`)
  is a field of each answer. The float arithmetic of the delays is integer here.
- The network. aiohttp sessions are an id plus a closed flag. Responses, their headers and
  their parsed JSON bodies are inputs. The pagination fetch is an oracle function of limit and
  offset. The iterator's other search arguments are fixed inside that oracle.
- Http.Run takes an escaping exception to be anything but a `RuntimeError`, so it cannot be
  mistaken for the giving-up error. aiohttp raises `RuntimeError` for a request on a closed
  session, and `recreate_session` rules that out just before the loop.
- Http.HTTPClient.Request does not wrap items in a `Manga` object. The login, logout,
  check-token and refresh-token wrappers of mangadex/http.py:83-97 only compose a route with
  `request`, so they are left out.
- The user-agent text depends on installed versions, so it is a constructor parameter of
  `SharedHeaders`.
- Each built request holds a snapshot of the shared headers. In Python it holds the dict
  itself, so a later token change would also show in an earlier request.
- `str()` is modelled for None, bools, ints and strings only. `Errors.Message` yields `None`
  for a detail or status of any other type.
- `uuid.UUID` is modelled through its string form: `urn:`/`uuid:` removed, braces stripped,
  hyphens removed, 32 hex digits. Its other argument checks are not modelled.
- Patterns.IsUuid accepts only 32 ASCII hexadecimal digits after stripping. The final
  `int(hex, 16)` also accepts a `0x` prefix, a sign, underscores, surrounding white space and
  non-ASCII decimal digits. So MangaRoutes.TagsCheck, MangaRoutes.IdsCheck and
  LegacyRoutes.LegacyIdsCheck refuse some 32-character strings that the source accepts.
- Patterns.MatchesDatePattern reads `\d` as an ASCII digit. Python's `\d` on `str` also matches
  other Unicode decimal digits. So MangaRoutes.DateCheck, which both `MangaList` constructors
  use, refuses dates written with such digits, which the source accepts.
- RateLimiting.InvAlwaysHolds holds for the atomic-step model only, and only for
  `requests_remaining >= 0`. The source differs in two ways. RateLimiting.RateLimiter.Acquire
  runs as one step here, but `acquire` tests `_value <= 0` outside the lock
  (mangadex/http/experimental_ratelimiter.py:108). Meanwhile `reboot_rate_limiter` holds the
  lock while it awaits the cancelled countdown (mangadex/http/experimental_ratelimiter.py:145).
  Two tasks can pass the test while reboot holds the lock. If reboot then sets `_value` to 0,
  both decrement it, and `_value` goes negative. Separately, a negative `requests_remaining`
  (mangadex/http/experimental_ratelimiter.py:151) is excluded, because the reboot event takes a
  `nat`.
- The e-mail pattern ignores `re.IGNORECASE`, which changes nothing for these character
  classes. `\s` is restricted to its ASCII characters: space, `\t\n\v\f\r` and
  `\x1c` to `\x1f`.
- Patterns.Strftime assumes years 1 to 9999 written in four digits.
- Dict ordering is not modelled: maps are unordered here, while Python dicts keep insertion order.
- mangadex/client.py, mangadex/manga.py and mangadex/http/result/manga.py are not part of this
  model. They are a credential cache over network calls and field copies.
- `PublicationDemographic` (mangadex/types/manga.py:16-21) is not used by the modelled code.
- `CreateManga` (mangadex/routes/manga.py:367-369) is left out: its constructor only raises.
- RateLimiting.RateLimiter.ResetWithoutNotify requires `_value <= limit`. Its only caller,
  reboot, sets `_value` to `limit` just before calling it, so the loop never runs there.
- RateLimiting.RateLimiter.Acquire models one pass of the `while` loop in `acquire`. A queued caller that is woken calls it again, so the model does not follow a task across its suspension.
- MangaUtils.MangaDescriptions.GetValue has no loop, because the first iteration already raises. It requires `Valid()`, the non-empty table that the constructor and `add_description` keep.
- `reboot_rate_limiter` is modelled, but nothing in mangadex/http.py calls it. Nor does the
  request loop call the rate limiter.
- MangaRoutes.BuildRequest states the lists that are sent. The converted excluded and
  available language lists are built in the source and then dropped; the model does not build
  them.
- MangaUtils.MangaTitles.GetValue keys a table by `MangaDexLanguage` members only. Other
  hashable keys would have their own `.value`, or none.
- Enum values of `MangaDexLanguage` are transcribed from mangadex/types/base.py:5-47,
  `Other` (value `None`) included.

## Findings

| source | as written | input that shows it | evidently intended | confidence | as-written member | corrected member |
|---|---|---|---|---|---|---|
| mangadex/http/experimental_ratelimiter.py:165-169 | `_reset` steps `_value` up by one until it equals the limit, so it never stops when entered above the limit | `reboot_rate_limiter(requests_remaining=limit + 1, retry_after=t)`, then the countdown fires | bring the count to the limit and stop | medium (reboot is not called from the request loop); not executed | RateLimiting.ResetAsWrittenNeverStops | RateLimiting.RateLimiter.Reset |
| mangadex/routes/manga.py:126-133 | the status check names `Status`, which neither mangadex/types/manga.py nor the other modelled modules define (mangadex/types/__init__.py is not part of this model), so every truthy status raises `NameError` | `MangaList(status=MangaStatus.PAUSED)` or `status='hiatus'` | check against `MangaStatus`, as mangadex/routes.py:151-158 does | medium; not executed | MangaRoutes.AsWrittenDiffersOnStatus | MangaRoutes.NewMangaList |
| mangadex/routes.py:256-270 | `includes` elements must be `ContentRating` members, although the parameter is typed as a list of `Relationship` members | `MangaList(order=MangaListOrder(), includes=[Relationship.AUTHOR])` | accept `Relationship` members, as mangadex/routes/manga.py:250-263 does | high; not executed | LegacyRoutes.RelationshipIncludesRejected | MangaRoutes.IncludesCheck |
| mangadex/routes.py:252-253 | `order` must be a `MangaListOrder` even though its default is `None`, so the constructor's defaults always raise | `MangaList()` | check `order` only when given, as mangadex/routes/manga.py:244-246 does | high; not executed | LegacyRoutes.DefaultsRejected | MangaRoutes.OrderCheck |
| mangadex/utils/manga.py:63-67 | `getvalue` iterates the dict's keys and unpacks each language member into two names, which raises `TypeError` | `MangaDescriptions('text').getvalue()` | iterate `.items()`, as `MangaTitles.getvalue` (mangadex/utils/manga.py:50-54) does | high; not executed | MangaUtils.MangaDescriptions.GetValue | MangaUtils.MangaDescriptions.IntendedGetValue |
| mangadex/routes/manga.py:356-363 | the conversion loop iterates the fresh empty list `includes` rather than `self.includes`, so `includes[]` is always sent empty | `MangaList(includes=[Relationship.AUTHOR]).build_request()` sends `includes[] == []` | send the values of `self.includes` | high; not executed | MangaRoutes.IncludesDropped | MangaRoutes.IntendedIncludes |

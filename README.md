# tt-tursite review sync, modelled in Dafny

tt-tursite is a Laravel application. Each user stores a Yandex Maps link to an organisation. The application copies that organisation's reviews, its rating and its review count into its own database, and serves them page by page. This project models and proves the core of that application.

- **The sync command** (`reviews:sync {user_id}`, `SyncReviews`). It marks the user's setting as running and finds the organisation id in the stored link. It then drives headless Chrome through the reviews page: it sorts by date and scrolls until no new `fetchReviews` request appears. It harvests the captured JSON responses, replaces the user's reviews, and records the outcome in the setting's status and message. Modules: `SyncReviews`, `SyncScroll`, `SyncHarvest`, `RawReview`, `OrgId`.
- **The review service** (`YandexReviewService`). It resolves the link through its redirects and extracts the organisation id. It fetches the reviews page and reads the embedded `{"config"…}` JSON. When there is none, it falls back to the rating sentence of the page's meta description. Modules: `ReviewService`, `ServiceUrl`, `OrgId`.
- **The HTTP side** (`ReviewController`, `SettingRepository`, `SaveSettingsRequest`):
  - the paginated review listing with its page-size clamp;
  - the sync request, with its guard against a second run;
  - the status poll, which fails a sync that has been stuck for more than ten minutes;
  - saving a new link, which discards the old organisation's reviews and figures;
  - the validation of the settings form.
- **The two diagnostic commands** (`debug:yandex`, `DebugScrape`, and `debug:yandex-api`, `DebugApi`). They resolve a link, list the review-related keys of the embedded config, and call the reviews API with a chain of strategies (A, B, B2, C, D, E).
- **The stores.** The database is a class whose fields are the settings (a map per user), the review rows (a map keyed by user and Yandex id, the unique key of the reviews table) and the queue of sync jobs (`ReviewStore`).

PHP values are modelled as a datatype `Php.Value`, with PHP's own `??`, `isset`, truthiness, casts and `array_merge`. The `(int)` cast reads a string's numeric prefix as PHP 8 does, with its fraction and exponent. It truncates toward zero and saturates at the 64-bit bounds. Strings are sequences of characters.

The following are parameters of the operations that use them, not modelled:
- what PHP or the framework computes: `json_decode`, `md5`, `Carbon::parse`, the `url` validation rule, the script-block extraction of a page, the token regexes of the debug probe, and the English and Russian rating regexes of the review service's meta-description fallback (app/Services/YandexReviewService.php:194 and 200), given as the parameters `english` and `russian`;
- the network and the browser: the HTTP answers, the bodies Chrome hands out per request id, and the reviews API's answers.

Every other regex that decides behaviour is written out as a predicate. Each one is proved equal to a declarative description of its matches.

## Model

| member | source | states |
|---|---|---|
| OrgId.OrgMatchAtSound | app/Services/YandexReviewService.php:63 | a captured id at a position is the digit run after `/org/<slug>/` that the pattern `\/org\/[^\/]+\/(\d+)` matches there |
| OrgId.OrgMatchAtComplete | app/Services/YandexReviewService.php:63 | wherever the pattern matches, the capture is the whole digit run after the slug (greedy `\d+`) |
| OrgId.OrgMatchFrom | app/Services/YandexReviewService.php:63 | the search returns the leftmost position where the org pattern matches, and none when it matches nowhere |
| OrgId.OrgPattern | app/Services/YandexReviewService.php:63-65 | the first pattern's capture is the one at some matching position, and absent exactly when no position matches |
| OrgId.TenDigitsAtRun | app/Services/YandexReviewService.php:68 | `(\d{10,})` can start at a position exactly when the digit run there has at least ten digits |
| OrgId.LongRunFrom | app/Services/YandexReviewService.php:68 | the search returns the first position where ten digits start, and none when there is no such position |
| OrgId.LongRun | app/Services/YandexReviewService.php:68-70 | the fallback capture has at least ten digits only, and is absent exactly when no ten-digit run exists |
| OrgId.LongRunIsFirstLongRun | app/Services/YandexReviewService.php:68 | the fallback capture is a maximal digit run of the URL (not preceded or followed by a digit) and the leftmost one of ten or more digits |
| OrgId.ExtractOrgId | app/Services/YandexReviewService.php:60-73 | `extractOrgId` yields a non-empty digit string: the org pattern's capture when it matches, otherwise the first run of ten or more digits |
| OrgId.OrgPatternMatches | app/Console/Commands/SyncReviews.php:88-90 | the first pattern succeeds exactly when an `/org/<slug>/<digits>` match exists somewhere in the URL |
| OrgId.ExtractOrgIdNone | app/Console/Commands/SyncReviews.php:86-95 | `extractOrgId` returns null exactly when neither the org pattern nor a ten-digit run occurs in the URL |
| ServiceUrl.ResolveUrl | app/Services/YandexReviewService.php:41-58 | without a (truthy) redirect history the URL is used as given |
| ServiceUrl.ResolvedIsLastRedirect | app/Services/YandexReviewService.php:52-55 | with a redirect history the resolved URL is its last `", "`-separated entry: a suffix of the history, free of `", "`, and either the whole history or preceded by the separator |
| ServiceUrl.LastOfExplode | app/Services/YandexReviewService.php:53-54 | `last(explode($sep, $s))` is the text after the last occurrence of the separator |
| ServiceUrl.ExplodeLast | app/Services/YandexReviewService.php:53-54 | the last piece of `explode` is a suffix without the separator, preceded by the separator unless it is the whole string |
| ServiceUrl.Strtok | app/Services/YandexReviewService.php:107 | `strtok($url, '?')` gives a non-empty token without `?`, false exactly when the URL is all `?`, and the text before the first `?` when the URL does not start with `?` |
| ServiceUrl.StrtokWhole | app/Services/YandexReviewService.php:107 | a URL without `?` is its own token |
| ServiceUrl.CleanNoQuery | app/Services/YandexReviewService.php:107-108 | the cleaned URL never holds a query (`?`) |
| ServiceUrl.EnsureReviewsUrlParts | app/Services/YandexReviewService.php:104-118 | the result has no `?`, ends in `/reviews/`, and is the cleaned URL followed by `/reviews/` or by `/` |
| ServiceUrl.EnsureReviewsUrlPrefix | app/Services/YandexReviewService.php:107-117 | the result starts with the URL up to its first `?`, trailing slashes removed |
| ServiceUrl.ReviewsUrlFixed | app/Services/YandexReviewService.php:111-115 | a URL that already ends in `/reviews/` and has no query is left unchanged |
| ServiceUrl.EnsureReviewsUrlIdempotent | app/Services/YandexReviewService.php:104-118 | applying `ensureReviewsUrl` twice is the same as applying it once |
| ServiceUrl.EnsureReviewsUrlKeepsRest | app/Services/YandexReviewService.php:111-112 | a plain URL not ending in `/reviews` or `/` gets `/reviews/` appended and nothing else changes |
| ServiceUrl.EnsureReviewsUrlKeepsFragment | app/Services/YandexReviewService.php:106-108 | a `#fragment` survives: despite the comment only the query is stripped |
| RawReview.AuthorName | app/Console/Commands/SyncReviews.php:365 | `$raw['author']['name'] ?? …` never yields null: a null or missing name falls through to the default |
| RawReview.DateOf | app/Console/Commands/SyncReviews.php:366 | the review date is present exactly when `updatedTime` or `date` is set (non-null), and is never null |
| RawReview.Author | app/Console/Commands/SyncReviews.php:371 | the stored author is never null (`'Anonymous'` when the name is unset) |
| RawReview.TextOf | app/Console/Commands/SyncReviews.php:373 | the stored text is never null (`''` when unset) |
| RawReview.Branch | app/Console/Commands/SyncReviews.php:374 | the branch is `businessName`, else `orgName`, else absent, and never a stored null value |
| RawReview.ExternalId | app/Console/Commands/SyncReviews.php:365 | the review key is `reviewId` when set, else `id`; only without both is it the md5 of author name and date, which fails with "Array to string conversion" exactly when one of those is an array |
| RawReview.Normalize | app/Console/Commands/SyncReviews.php:370-377 | the stored attributes have no phone, a non-null author and text, and no null date or branch |
| RawReview.ScalarRecordDefaults | app/Console/Commands/SyncReviews.php:365-375 | a review that is not an array is stored with every default (`Anonymous`, rating 0, empty text) and keyed by `md5('')` |
| ReviewStore.Saved | app/Http/Controllers/Api/ReviewController.php:81 | an Eloquent `update` writes the new attributes and touches `updated_at` only when some attribute actually changes |
| ReviewStore.WithoutUser | app/Repositories/SettingRepository.php:22 | deleting one user's reviews removes exactly the rows of that user and keeps every other row as it was |
| ReviewStore.UserKeys | app/Http/Controllers/Api/ReviewController.php:34 | `where('user_id', …)` selects exactly the stored rows of that user |
| ReviewStore.ApplySnoc | app/Console/Commands/SyncReviews.php:364-383 | one more `updateOrCreate` writes its row under its key and counts one more creation exactly when the key was new |
| ReviewStore.LastWriteOf | database/migrations/2026_02_11_132851_create_reviews_table.php:27 | finds the last write of a key in a write sequence, or reports that the key is never written |
| ReviewStore.OverlayLastWriteWins | database/migrations/2026_02_11_132851_create_reviews_table.php:27 | with `(user_id, yandex_id)` unique, a key written several times keeps the row of its last write |
| ReviewStore.ApplyIsOverlay | app/Console/Commands/SyncReviews.php:364-383 | the table after a run of `updateOrCreate` calls is the old table overridden by the last write of each key |
| ReviewStore.AddKeyOutside | app/Console/Commands/SyncReviews.php:380-382 | adding a key to the written set grows the count of new keys by one exactly when the key was not yet there |
| ReviewStore.ApplyLastStep | app/Console/Commands/SyncReviews.php:368-382 | the last write adds its key, and counts as created exactly when its key was absent before it |
| ReviewStore.CreatedCountIsNewKeys | app/Console/Commands/SyncReviews.php:380-385 | the `wasRecentlyCreated` count is the number of keys the writes added to the table, never more than the number of writes |
| ReviewStore.ApplyIdempotent | app/Console/Commands/SyncReviews.php:364-383 | storing the same reviews twice leaves the table as after once, and the second run creates nothing |
| ReviewStore.ApplyKeepsOtherUsers | app/Console/Commands/SyncReviews.php:368-369 | writes keyed by one user neither add, remove nor change any other user's rows |
| ReviewStore.Database.constructor | database/migrations/2026_02_11_132851_create_reviews_table.php:14-29 | a fresh database has no settings, no reviews and no queued jobs |
| ReviewStore.Database.UpdateSetting | app/Http/Controllers/Api/ReviewController.php:81 | `$setting->update(...)` replaces the user's row by its saved form and changes nothing else |
| ReviewStore.Database.UpsertSetting | app/Repositories/SettingRepository.php:25-35 | `updateOrCreate` on settings saves over an existing row, or creates one stamped `now` |
| ReviewStore.Database.DeleteReviewsOf | app/Repositories/SettingRepository.php:22 | the reviews table afterwards holds no row of the user and every other row unchanged |
| ReviewStore.Database.UpdateOrCreate | app/Console/Commands/SyncReviews.php:368-380 | the row is written under its key, and reported created exactly when the key was absent |
| ReviewStore.Database.Enqueue | app/Http/Controllers/Api/ReviewController.php:83-85 | `Artisan::queue` appends one sync job for the user |
| ReviewController.ClampPerPage | app/Http/Controllers/Api/ReviewController.php:32 | the page size lies in 5..50, is kept when already inside, and is moved to the nearer bound otherwise |
| ReviewController.ClampIdempotentMonotone | app/Http/Controllers/Api/ReviewController.php:32 | clamping twice is clamping once, and a larger request never gets a smaller page |
| ReviewController.PerPage | app/Http/Controllers/Api/ReviewController.php:31-32 | the page size is 50 when `per_page` is missing, the given integer when it is in range, 5 for a null (cast to 0), and always within 5..50 |
| ReviewController.PerPageOfRenderedInt | app/Http/Controllers/Api/ReviewController.php:31-32 | a `per_page` string holding a 64-bit integer gives that integer, clamped |
| ReviewController.PerPageOfExponent | app/Http/Controllers/Api/ReviewController.php:31-32 | a `per_page` of digits, `e` or `E`, digits and a non-digit tail is read with its exponent: the value times ten to the exponent, saturated (0 past the double range), then clamped |
| ReviewController.PerPageOfOneE2 | app/Http/Controllers/Api/ReviewController.php:31-32 | `per_page=1e2` is read as 100, so the page has 50 rows |
| ReviewController.PerPageOfFraction | app/Http/Controllers/Api/ReviewController.php:31-32 | a `per_page` of leading whitespace, digits, a `.` fraction and any tail that does not continue the number is truncated to its integer part, then clamped |
| ReviewController.PerPageOfTrailingText | app/Http/Controllers/Api/ReviewController.php:31-32 | leading whitespace and a tail that does not continue the number are ignored: the digits' value, saturated and clamped |
| ReviewController.PerPageOfNonNumber | app/Http/Controllers/Api/ReviewController.php:31-32 | a `per_page` that does not start with whitespace, a sign, a digit or a `.` casts to 0, so the page has 5 rows |
| ReviewController.PerPageOfHugeInt | app/Http/Controllers/Api/ReviewController.php:31-32 | a digit string beyond the 64-bit range saturates at `PHP_INT_MAX`, so the page has 50 rows |
| Php.IntCast | app/Http/Controllers/Api/ReviewController.php:31 | `(int)` keeps an integer, maps null to 0, lands in the 64-bit range for every other value, reads a digit string as its value and saturates one beyond the range |
| Php.IntCastOfFraction | app/Console/Commands/SyncReviews.php:372 | `(int)` of a float rendered as digits, `.` and digits is its integer part, when that fits in 64 bits |
| Php.IntCastOfFourPointNine | app/Console/Commands/SyncReviews.php:372 | `(int)` of the float 4.9 is 4 |
| Php.IntCastOfSmallFloat | app/Console/Commands/SyncReviews.php:372 | `(int)` of the float rendered `1.0E-5` is 0 |
| Text.LeadingIntOfIntToString | app/Http/Controllers/Api/ReviewController.php:31 | casting a rendered 64-bit integer back with `(int)` gives the integer |
| Text.LeadingIntOfDigits | app/Http/Controllers/Api/ReviewController.php:31 | `(int)` of a digit string is its value, saturated at `PHP_INT_MAX` |
| Text.LeadingIntOfPaddedDigits | app/Http/Controllers/Api/ReviewController.php:31 | `(int)` skips leading whitespace and stops at the first character that cannot continue the number: the digits' value, saturated |
| Text.LeadingIntOfExponent | app/Http/Controllers/Api/ReviewController.php:31 | `(int)` of digits, an exponent mark and digits is the mantissa times ten to the exponent, 0 when that overflows a double and saturated otherwise |
| Text.LeadingIntOfFraction | app/Http/Controllers/Api/ReviewController.php:31 | `(int)` of a string with a decimal fraction truncates toward zero to the integer part, saturated |
| Text.NumericPrefixOfPaddedFraction | app/Http/Controllers/Api/ReviewController.php:31 | the numeric prefix of whitespace, digits, `.` and digits is the decimal of all the digits scaled down by the fraction's length |
| Text.FloatToIntOfFraction | app/Console/Commands/SyncReviews.php:372 | `(int)` of a float rendered with a fraction is its integer part, wrapped to 64 bits |
| Text.NoNumericPrefix | app/Http/Controllers/Api/ReviewController.php:31 | a string that cannot start a number has no numeric prefix and casts to 0 |
| Text.DigitsValueAppend | app/Http/Controllers/Api/ReviewController.php:31 | the value of concatenated digit strings is the first's value shifted by the second's length plus the second's value |
| Text.TruncateOfFraction | app/Http/Controllers/Api/ReviewController.php:31 | truncating the decimal of `a.b` gives the value of `a`, and it does not overflow a double when `a` does not |
| ReviewController.Index | app/Http/Controllers/Api/ReviewController.php:18-63 | `index` answers 422 with the not-configured message exactly when the user has no setting or no truthy URL; otherwise 200 with the clamped page size, the user's review count, the stored rating and sync time, and `total_reviews` falling back to the review count |
| ReviewController.SyncDecision | app/Http/Controllers/Api/ReviewController.php:67-79 | a sync is refused as unconfigured exactly without a setting with a URL, answered "already running" with the stored status and message exactly while pending or running, and started otherwise |
| ReviewController.Queued | app/Http/Controllers/Api/ReviewController.php:81 | the queued row is pending with "В очереди...", stamped `now` unless it was already pending, its URL and synced figures kept |
| ReviewController.Sync | app/Http/Controllers/Api/ReviewController.php:65-91 | `sync` answers by the decision, and changes the row and queues a job for the user only when it started a sync |
| ReviewController.SecondSyncRefused | app/Http/Controllers/Api/ReviewController.php:73-81 | right after a started sync a second request is answered "already running", pending, with the queue message |
| ReviewController.DiffInMinutes | app/Http/Controllers/Api/ReviewController.php:105 | Carbon's `diffInMinutes` is the absolute difference in whole minutes, truncated |
| ReviewController.StaleInSeconds | app/Http/Controllers/Api/ReviewController.php:102-105 | a row is stale exactly when it is pending or running with an `updated_at` at least 660 seconds away from now |
| ReviewController.Refreshed | app/Http/Controllers/Api/ReviewController.php:101-111 | a stale row becomes failed with the timeout message and a fresh `updated_at`; any other row is unchanged; the URL and synced figures are always kept |
| ReviewController.RefreshKeepsSettled | app/Http/Controllers/Api/ReviewController.php:102 | a row that is not pending or running is never reset |
| ReviewController.RefreshIdempotent | app/Http/Controllers/Api/ReviewController.php:101-111 | polling twice at the same instant resets no more than polling once |
| ReviewController.TimeoutUnblocksSync | app/Http/Controllers/Api/ReviewController.php:73-109 | after the status poll a stale sync no longer blocks a new one, while a live one still does |
| ReviewController.ReportOf | app/Http/Controllers/Api/ReviewController.php:113-119 | the status report carries the stored message, time, total and rating, and says "idle" exactly when the status is unset or idle |
| ReviewController.SyncStatus | app/Http/Controllers/Api/ReviewController.php:93-120 | without a setting the answer is idle and nothing changes; otherwise the row is refreshed and its report returned |
| SettingRepository.Attributes | app/Repositories/SettingRepository.php:25-35 | the saved attributes have the new URL, idle status and no message; the rating, total and last sync survive only when the URL is unchanged and are cleared for a changed URL or a new row |
| SettingRepository.SaveYandexUrl | app/Repositories/SettingRepository.php:16-36 | the user's reviews are deleted exactly when an existing row had a different URL, and the row is updated or created with the new attributes and returned |
| SettingRepository.SaveResetsStatus | app/Repositories/SettingRepository.php:28-33 | every save leaves the row idle, without message, holding the new URL, even over a running sync |
| SettingRepository.SameUrlKeepsCache | app/Repositories/SettingRepository.php:29-31 | saving the URL the row already has keeps the rating, total and last sync time |
| SettingRepository.ChangedUrlDropsEverything | app/Repositories/SettingRepository.php:20-31 | after a URL change the user has no stored reviews and no synced figures, and the other users' reviews are untouched |
| SettingRepository.SaveIdempotent | app/Repositories/SettingRepository.php:16-36 | saving the same URL again changes nothing, not even `updated_at` |
| SettingRepository.SavedRowAcceptsSync | app/Http/Controllers/Api/ReviewController.php:69-81 | a row saved with a truthy URL accepts a sync request |
| SaveSettingsRequest.SpanEndsRun | app/Http/Requests/SaveSettingsRequest.php:20 | in any match of `yandex\.\w+\/maps` the word characters are the whole word run after `yandex.` |
| SaveSettingsRequest.MatchAtIff | app/Http/Requests/SaveSettingsRequest.php:20 | the regex matches at a position exactly when a `yandex.<word>/maps` span starts there |
| SaveSettingsRequest.MatchFromIff | app/Http/Requests/SaveSettingsRequest.php:20 | the search from a position succeeds exactly when such a span starts at or after it |
| SaveSettingsRequest.RegexIsYandexMapsLink | app/Http/Requests/SaveSettingsRequest.php:20 | `preg_match` with the rule's regex accepts exactly the strings holding `yandex.`, one or more word characters and `/maps`, in any case |
| SaveSettingsRequest.NoMatchWithoutY | app/Http/Requests/SaveSettingsRequest.php:20 | the regex cannot match in text without a `y` in either case |
| SaveSettingsRequest.RejectsTurkishMirror | app/Http/Requests/SaveSettingsRequest.php:20 | `yandex.com.tr/maps` is refused, since `\w+` cannot cross the dot |
| SaveSettingsRequest.AcceptsAnyCase | app/Http/Requests/SaveSettingsRequest.php:20 | the `i` flag accepts `YANDEX.RU/Maps` |
| SaveSettingsRequest.Failing | app/Http/Requests/SaveSettingsRequest.php:20 | the failing rules are exactly the listed rules that fail on the value, in order |
| SaveSettingsRequest.Failures | app/Http/Requests/SaveSettingsRequest.php:20 | `required` fails exactly on a missing, null, blank or empty-array value and then is the only failure; otherwise the failures are exactly the failing `string`, `url` and `regex` rules |
| SaveSettingsRequest.CustomMessage | app/Http/Requests/SaveSettingsRequest.php:27-32 | only the regex rule has the form's own message |
| SaveSettingsRequest.TrimKeeps | app/Http/Requests/SaveSettingsRequest.php:20 | a value with one character that `trim` does not strip does not trim to empty |
| SaveSettingsRequest.LTrimKeeps | app/Http/Requests/SaveSettingsRequest.php:20 | left trimming stops at or before the first character that is no trim character |
| SaveSettingsRequest.RTrimKeeps | app/Http/Requests/SaveSettingsRequest.php:20 | right trimming keeps every position up to the last character that is no trim character |
| SaveSettingsRequest.LinkNotBlank | app/Http/Requests/SaveSettingsRequest.php:20 | a Yandex Maps link is never blank, so `required` never fails on one |
| SaveSettingsRequest.BlankIffTrimmedEmpty | app/Http/Requests/SaveSettingsRequest.php:20 | a string is blank for `required` exactly when `trim` empties it |
| SaveSettingsRequest.LTrimBlank | app/Http/Requests/SaveSettingsRequest.php:20 | left trimming empties a string made only of trim characters |
| SaveSettingsRequest.AcceptedIff | app/Http/Requests/SaveSettingsRequest.php:17-22 | the form is accepted exactly when `yandex_url` is a string the `url` rule accepts and a Yandex Maps link |
| ReviewService.QualifyingFlags | app/Services/YandexReviewService.php:127-133 | one flag per script block, set exactly for a block that is a long `{"config"` block whose trimmed text decodes |
| ReviewService.FirstSet | app/Services/YandexReviewService.php:127-141 | the first set flag from a position on, or none when no flag is set |
| ReviewService.ConfigIndex | app/Services/YandexReviewService.php:127-141 | the index of the first block that qualifies and decodes; every earlier block does not; none when no block does |
| ReviewService.FirstConfig | app/Services/YandexReviewService.php:120-144 | `extractEmbeddedJsonConfig` returns the decoding of the first qualifying block, skipping blocks whose JSON fails, and null when there is none |
| ReviewService.ExtractEmbeddedJsonConfig | app/Services/YandexReviewService.php:120-144 | the loop over script blocks returns exactly `FirstConfig` |
| ReviewService.StackItems | app/Services/YandexReviewService.php:153 | `$data['stack'][0]['results']['items'] ?? []` is never null |
| ReviewService.FirstItem | app/Services/YandexReviewService.php:160 | `$stackItems[0]` is the element under key 0, raises "Undefined array key 0" when an array lacks it, and fails on a value that is neither array nor string |
| ReviewService.NormalizeAll | app/Services/YandexReviewService.php:170-179 | one normalised review per raw review, in order |
| ReviewService.RatingDataOf | app/Services/YandexReviewService.php:163 | `$orgData['ratingData'] ?? []` is never null |
| ReviewService.CountField | app/Services/YandexReviewService.php:165 | the count is `reviewCount`, else `ratingCount`, and never a null value |
| ReviewService.ReviewList | app/Services/YandexReviewService.php:168 | `$orgData['reviewResults']['reviews'] ?? []` is never null |
| ReviewService.ItemPage | app/Services/YandexReviewService.php:162-185 | the item yields a page exactly when its review list is an array (otherwise the `foreach` warning); the page holds those reviews normalised, `ratingValue` rounded when set, and a truthy count cast to int or else the number of reviews |
| ReviewService.ConfigPage | app/Services/YandexReviewService.php:146-186 | empty stack items give the empty page; a failing first item gives its error; otherwise the page of the first item |
| ReviewService.NormalizeEach | app/Services/YandexReviewService.php:170-179 | the loop builds exactly `NormalizeAll` of the raw reviews |
| ReviewService.ParseItem | app/Services/YandexReviewService.php:160-185 | the method computes exactly `ItemPage` |
| ReviewService.ParseEmbeddedConfig | app/Services/YandexReviewService.php:146-186 | the method computes exactly `ConfigPage` |
| ReviewService.ReplaceChar | app/Services/YandexReviewService.php:201 | `str_replace(',', '.', …)` keeps the length and replaces every comma by a dot, and nothing else |
| ReviewService.MetaPage | app/Services/YandexReviewService.php:188-210 | the meta fallback has no reviews; the English sentence gives rating and review count unless its rating is zero, then the Russian one (commas as dots) is tried; neither gives no rating and no total |
| ReviewService.ParseMetaFallback | app/Services/YandexReviewService.php:188-210 | the method computes exactly `MetaPage` |
| ReviewService.PageOf | app/Services/YandexReviewService.php:94-101 | without an embedded config the meta fallback is used; a non-empty config array is parsed; a config that is not an array is a type error; reviews are found only through a config |
| ReviewService.ReviewsOf | app/Services/YandexReviewService.php:18-39 | `getReviews` fails with the HTTP error, with "Could not extract organization ID from URL." when the resolved URL has no id, or with the status message for an unsuccessful reviews page; otherwise it yields the page of the fetched HTML |
| ReviewService.ScrapeFromEmbeddedJson | app/Services/YandexReviewService.php:75-102 | the reviews page is fetched from `ensureReviewsUrl`; a transport error or an unsuccessful status fails, otherwise the HTML's page is returned |
| ReviewService.GetReviews | app/Services/YandexReviewService.php:18-39 | the method computes exactly `ReviewsOf` |
| SyncHarvest.PickReviews | app/Console/Commands/SyncReviews.php:349 | the reviews of a response are `data.reviews` when set, else `reviews`, else the empty array, and never null |
| SyncHarvest.Reply | app/Console/Commands/SyncReviews.php:341-348 | a request id yields a decoded reply exactly when the id is truthy and the browser still holds its response body |
| SyncHarvest.GetResponseReviews | app/Console/Commands/SyncReviews.php:336-358 | the loop over request ids computes exactly the harvest `HarvestFrom` of all ids, from an empty list |
| SyncHarvest.Answered | app/Console/Commands/SyncReviews.php:340-355 | the ids that yield a reply, in order: no more than the ids given, each one answered |
| SyncHarvest.HarvestSkipsSilentIds | app/Console/Commands/SyncReviews.php:341-354 | falsy ids and ids whose body is gone (the caught exception) contribute nothing: harvesting only the answered ids gives the same result |
| SyncHarvest.HarvestFatalIff | app/Console/Commands/SyncReviews.php:349-350 | the harvest dies (`array_merge` TypeError, which `catch (\Exception)` does not catch) exactly when some answered reply's reviews are not an array |
| SyncHarvest.HarvestOfLists | app/Console/Commands/SyncReviews.php:338-357 | when every reply holds a list, the harvest is a list of the earlier reviews followed by every reply's reviews in request order |
| SyncHarvest.HarvestOfListsAnswered | app/Console/Commands/SyncReviews.php:340-350 | the same holds when the first id is answered, so its reviews come first |
| SyncScroll.Step | app/Console/Commands/SyncReviews.php:268-321 | one scroll: a round with new request ids harvests them (once more when empty), dies exactly when a harvest dies, resets the quiet count and appends what it got, reporting the new total; a round without new ids only counts one more quiet round; ids seen are always kept |
| SyncScroll.NewIdsSlice | app/Console/Commands/SyncReviews.php:299 | `array_slice($fetchRequestIds, $prevCount)` is exactly the ids that arrived since the count was taken |
| SyncScroll.StepBusy | app/Console/Commands/SyncReviews.php:296-314 | a round with new ids merges a non-empty harvest into the reviews and sets the loaded count to the new total, and leaves the reviews alone otherwise |
| SyncScroll.RetriedHarvest | app/Console/Commands/SyncReviews.php:300-306 | an empty harvest of new ids is retried exactly once |
| SyncScroll.Iterate | app/Console/Commands/SyncReviews.php:269-321 | the loop body computes exactly `Step`, and the only change to the row is the "Загружено N отзывов..." message for the last loaded count |
| SyncScroll.ScrollLoop | app/Console/Commands/SyncReviews.php:256-322 | the loop computes exactly `Run` from the start state, the row's message left at the last loaded count |
| SyncScroll.RunLength | app/Console/Commands/SyncReviews.php:256-321 | the loop makes at most 300 scrolls and stops after the eighth quiet round in a row: it runs to 300 or to eight rounds past the last busy one, whichever comes first |
| SyncScroll.RunReportsCount | app/Console/Commands/SyncReviews.php:308-311 | after the loop the reviews are unchanged or the reported count is the number of reviews gathered |
| SyncScroll.RetriedValues | app/Console/Commands/SyncReviews.php:300-306 | when every reply holds a list, a round gathers the reviews of its new ids, or of the retry when the first attempt gathered none |
| SyncScroll.RunAppends | app/Console/Commands/SyncReviews.php:268-322 | when every reply holds a list, the loop never dies and appends each round's reviews in round order |
| SyncScroll.StepGathers | app/Console/Commands/SyncReviews.php:308-309 | a round whose harvest survives merges it into the reviews only when it is non-empty |
| SyncScroll.StepAppends | app/Console/Commands/SyncReviews.php:296-314 | when every reply holds a list, one round appends exactly what it gathered |
| SyncReviews.RTrimOneSlash | app/Console/Commands/SyncReviews.php:129 | `rtrim` of a URL with exactly one trailing slash removes just that slash |
| SyncReviews.SuffixContains | app/Console/Commands/SyncReviews.php:130-131 | a string ending in `/reviews/` contains `/reviews/` |
| SyncReviews.NavUrlShape | app/Console/Commands/SyncReviews.php:128-132 | the navigation URL contains `/reviews/`, ends in exactly one slash, and building it again from itself changes nothing |
| SyncReviews.WriteOf | app/Console/Commands/SyncReviews.php:365-377 | one review's `updateOrCreate` is keyed by the user and the string form of its external id, carries its author, stars, text, branch and no phone, has a date exactly when the date is truthy; it writes a row exactly when the id can be built, the date is falsy or parses, and no column value is an array; it raises "Array to string conversion" when the md5 key cannot be built or, the date having parsed, a column value is an array; it dies uncaught exactly when `Carbon::parse` gets a value it cannot take |
| SyncReviews.ArrayColumnRaises | app/Console/Commands/SyncReviews.php:365-377 | a review whose author name, text or branch is an array stores no row: after the rows of the reviews before it the run raises "Array to string conversion", which the command's `catch` turns into a failed sync |
| SyncReviews.ArrayAuthorRaises | app/Console/Commands/SyncReviews.php:365-377 | the review `{"reviewId": "1", "author": {"name": ["x"]}}` alone stores nothing and the run raises "Array to string conversion" |
| SyncReviews.WritesOf | app/Console/Commands/SyncReviews.php:364-383 | one write per raw review, in order |
| SyncReviews.PlanInOrder | app/Console/Commands/SyncReviews.php:364-383 | the writes performed are the leading writes in order; the run completes exactly when all were performed, and otherwise stops at the first raising or dying review |
| SyncReviews.PlannedWritesInOrder | app/Console/Commands/SyncReviews.php:360-386 | the same for the raw reviews of a run: every stored row is the write of the review at its position, and a stop names the review that raised or died |
| SyncReviews.PlannedForUser | app/Console/Commands/SyncReviews.php:369 | every write of a run is keyed by its user |
| SyncReviews.PlanStops | app/Console/Commands/SyncReviews.php:364-378 | once a write raised or died, later reviews change nothing |
| SyncReviews.PlanStep | app/Console/Commands/SyncReviews.php:364-382 | one more review adds its row, or stops the run with its error or crash |
| SyncReviews.StoreReviews | app/Console/Commands/SyncReviews.php:360-386 | `storeReviews` performs the planned writes on the table, returns the number of rows created, and ends as the plan ends |
| SyncReviews.PerformWrites | app/Console/Commands/SyncReviews.php:362-385 | the `updateOrCreate` loop applies the writes up to the first failure and counts the newly created rows |
| SyncReviews.StoredIsUserCount | app/Console/Commands/SyncReviews.php:60-66 | after the user's rows were deleted, the rows created equal the user's row count, so `$stored` and `$totalInDb` agree |
| SyncReviews.RatingOf | app/Console/Commands/SyncReviews.php:142-169 | without truthy rating JSON there is no rating and no total; otherwise the rating is `ratingValue` rounded exactly when set, and the total is `reviewCount`, else `ratingCount` |
| SyncReviews.TotalOf | app/Console/Commands/SyncReviews.php:329 | a missing or falsy total is null, any other is cast to int, and an integer total is never 0 |
| SyncReviews.FetchOf | app/Console/Commands/SyncReviews.php:97-334 | a browser fault aborts the fetch with its message; no captured fetchReviews request gives null exactly when there is no fault; a fetch returns the rating and total of the rating script |
| SyncReviews.FetchGathers | app/Console/Commands/SyncReviews.php:221-330 | when every reply holds a list, the fetch returns the first harvest followed by every scroll round's reviews in order, after at most 300 scrolls |
| SyncReviews.FetchAllReviewsViaChrome | app/Console/Commands/SyncReviews.php:97-334 | the method computes exactly `FetchOf`, changes only the row's message and `updated_at`, and leaves the sorting message when nothing was captured and the loading or loaded message after a fetch |
| SyncReviews.ErrorMessage | app/Console/Commands/SyncReviews.php:78 | the failure message starts with "Ошибка: " and keeps at most 100 characters of the exception message |
| SyncReviews.Replace | app/Console/Commands/SyncReviews.php:49-74 | after a fetch the rating and total are written only when the rating is not null, the user's reviews are replaced by the stored ones, and the run ends as `Concluded` states |
| SyncReviews.Fail | app/Console/Commands/SyncReviews.php:36 | a failure sets status failed with the message at `now` and changes nothing else |
| SyncReviews.Conclude | app/Console/Commands/SyncReviews.php:33-83 | after the running status is set, the run ends as `Concluded` states for the org id of the URL and the fetch of its navigation URL |
| SyncReviews.ConcludeFetch | app/Console/Commands/SyncReviews.php:42-83 | a fetch that returned null fails with "Не удалось загрузить отзывы", a raised fault fails with the error message, a crash leaves the row running, and a fetch goes on to the replacement |
| SyncReviews.Handle | app/Console/Commands/SyncReviews.php:18-84 | without a setting with a URL the command exits 1 and changes nothing; otherwise it keeps the URL, stamps the row, fails without an org id, keeps the old reviews and figures unless a fetch returned, replaces the user's reviews after one, and completes with the user's review count only when every write succeeded |
| DebugScrape.FinalUrl | app/Console/Commands/DebugYandexScrape.php:28-29 | the final URL is the input without a redirect history, and otherwise the history's last `", "`-separated entry |
| DebugScrape.ScrapeOrgId | app/Console/Commands/DebugYandexScrape.php:34-41 | the id found is a non-empty digit string: the org pattern's capture on the final URL, else on the input URL, else the first run of ten or more digits of the final URL |
| DebugScrape.ScrapeOrgIdWithoutRedirects | app/Console/Commands/DebugYandexScrape.php:29-41 | without redirects the command finds the same id as `extractOrgId` of the input |
| DebugScrape.InputDigitsIgnored | app/Console/Commands/DebugYandexScrape.php:37-40 | when the input has no org pattern, only the final URL is searched for digits: a long digit run in the input alone is never used |
| DebugScrape.OrgInfoNeverMatches | app/Console/Commands/DebugYandexScrape.php:183 | the test for `orgInfo` on a lower-cased key can never succeed, since the needle has an upper-case letter |
| DebugScrape.ReportedKeyIff | app/Console/Commands/DebugYandexScrape.php:180-186 | a key is reported exactly when it is a string key containing `review` or `rating` in any case, or is `stars` or `author` |
| DebugScrape.Reports | app/Console/Commands/DebugYandexScrape.php:173-175 | below depth 6 nothing is reported |
| DebugScrape.ReportsSound | app/Console/Commands/DebugYandexScrape.php:173-197 | every reported key passes the key test |
| DebugScrape.PrefixSound | app/Console/Commands/DebugYandexScrape.php:177-196 | every key reported for the first entries passes the key test |
| DebugScrape.EntrySound | app/Console/Commands/DebugYandexScrape.php:178-195 | every key reported for one entry and its children passes the key test |
| DebugScrape.EntryInPrefix | app/Console/Commands/DebugYandexScrape.php:177-196 | what one entry reports is part of what the loop reports once it has passed that entry |
| DebugScrape.ReportsComplete | app/Console/Commands/DebugYandexScrape.php:177-196 | at depth 6 or less every matching key is reported with its path and value, and everything found in an array child, one level deeper and under the child's path, is reported too |
| DebugScrape.NestedFoundIff | app/Console/Commands/DebugYandexScrape.php:175-194 | a `review` key nested n levels down is found exactly when its depth stays at most 6 |
| DebugScrape.FindReviewKeys | app/Console/Commands/DebugYandexScrape.php:173-197 | the traversal emits exactly `Reports` |
| DebugScrape.VisitEntry | app/Console/Commands/DebugYandexScrape.php:178-195 | one entry emits exactly its own report and its children's |
| DebugScrape.BlockAt | app/Console/Commands/DebugYandexScrape.php:96-117 | a block has a report exactly when its trimmed text is a long `{"config"` block: its keys and review keys, a JSON error, or a crash on a decoded value that is not an array |
| DebugScrape.Outcomes | app/Console/Commands/DebugYandexScrape.php:96-118 | one outcome per script block, in order |
| DebugScrape.ScanFrom | app/Console/Commands/DebugYandexScrape.php:96-118 | each report of the scan is the outcome of the block it names, at or after the start |
| DebugScrape.ScanStep | app/Console/Commands/DebugYandexScrape.php:96-118 | a block that is no config block adds nothing, a crashing one ends the scan with its report, any other adds its report and the scan goes on |
| DebugScrape.Scan | app/Console/Commands/DebugYandexScrape.php:95-119 | every report names a config block and is that block's outcome |
| DebugScrape.ScanFromCovers | app/Console/Commands/DebugYandexScrape.php:96-118 | every config block is reported unless an earlier one crashed |
| DebugScrape.ConfigBlocksReported | app/Console/Commands/DebugYandexScrape.php:95-119 | a config block with no crashing config block before it is reported |
| DebugScrape.InspectBlock | app/Console/Commands/DebugYandexScrape.php:97-117 | the method computes exactly `BlockAt` |
| DebugScrape.ScanConfigBlocks | app/Console/Commands/DebugYandexScrape.php:95-119 | the loop computes exactly `Scan` |
| DebugScrape.Handle | app/Console/Commands/DebugYandexScrape.php:15-119 | the diagnosis reports the final URL, the id the chain finds in it and the reports of the config blocks |
| DebugApi.HostStart | app/Console/Commands/DebugYandexApi.php:33 | `https?://` at a position puts the host right after it, seven or eight characters on |
| DebugApi.DomainAtSound | app/Console/Commands/DebugYandexApi.php:33 | a domain found at a position is a `yandex.<word>` host directly followed by `/`, right after `http://` or `https://` |
| DebugApi.DomainAtComplete | app/Console/Commands/DebugYandexApi.php:33 | wherever `https?://(yandex\.\w+)/` matches, the capture is that host |
| DebugApi.DomainFrom | app/Console/Commands/DebugYandexApi.php:33 | the search finds the leftmost position where the domain pattern matches, and none when it matches nowhere |
| DebugApi.Domain | app/Console/Commands/DebugYandexApi.php:32-35 | the domain is always a `yandex.<word>` host |
| DebugApi.DomainIsLeftmostMatch | app/Console/Commands/DebugYandexApi.php:32-35 | the domain is `yandex.ru` when the pattern matches nowhere, and otherwise the host of its leftmost match |
| DebugApi.NoDomainWithoutH | app/Console/Commands/DebugYandexApi.php:33 | the pattern cannot match in text without an `h` |
| DebugApi.WwwFallsBack | app/Console/Commands/DebugYandexApi.php:32-35 | a `www.yandex.ru` URL falls back to `yandex.ru`: the pattern needs `yandex.` right after the scheme |
| DebugApi.DottedMirrorFallsBack | app/Console/Commands/DebugYandexApi.php:32-35 | `yandex.com.tr` falls back to `yandex.ru`: the host must be followed by `/` right after the word |
| DebugApi.CanonicalDomain | app/Console/Commands/DebugYandexApi.php:33-39 | a URL built as `https://<host>/…` yields that host back as its domain |
| DebugApi.CanonicalUrlsKeepDomain | app/Console/Commands/DebugYandexApi.php:176-177 | the reviews page and the API URL are on the domain taken from the input URL |
| DebugApi.NoOrgBefore | app/Console/Commands/DebugYandexApi.php:26 | the org pattern cannot match at a position before any `/o` |
| DebugApi.FirstOrgMatch | app/Console/Commands/DebugYandexApi.php:26-28 | the first position where the org pattern matches gives the capture of the pattern |
| DebugApi.OrgTestAt | app/Console/Commands/DebugYandexApi.php:39 | `/org/test/<digits>/` is an org-pattern match capturing the digits |
| DebugApi.HostPathHasNoOrg | app/Console/Commands/DebugYandexApi.php:39 | `https://<host>/maps` holds no `/o` |
| DebugApi.OrgTestTail | app/Console/Commands/DebugYandexApi.php:39 | the reviews URL places `/org/test/<id>/` right after its host prefix |
| DebugApi.ReviewsUrlCarriesId | app/Console/Commands/DebugYandexApi.php:39 | `extractOrgId`'s first pattern on the reviews URL built for an id gives that id back |
| DebugApi.Hits | app/Console/Commands/DebugYandexApi.php:301-303 | past depth 4 (at depth 5 or more) nothing is found |
| DebugApi.ChildPathEnds | app/Console/Commands/DebugYandexApi.php:306 | a child path ends with the key's text |
| DebugApi.HitsSound | app/Console/Commands/DebugYandexApi.php:301-316 | every hit is a non-array value whose path ends with the target key |
| DebugApi.PrefixHitsSound | app/Console/Commands/DebugYandexApi.php:305-315 | the same for the hits of the first entries |
| DebugApi.EntryHitsSound | app/Console/Commands/DebugYandexApi.php:306-314 | the same for the hits of one entry and its children |
| DebugApi.EntryHitsInPrefix | app/Console/Commands/DebugYandexApi.php:305-315 | what one entry finds is part of what the loop finds once it has passed that entry |
| DebugApi.HitsComplete | app/Console/Commands/DebugYandexApi.php:305-315 | at depth 4 or less every entry whose key's string form is the target and whose value is no array is found, and what an array child finds is found too while the depth is below 4 |
| DebugApi.BuriedFoundIff | app/Console/Commands/DebugYandexApi.php:303-313 | a key buried n levels down is found exactly when its depth stays at most 4 |
| DebugApi.SearchForKey | app/Console/Commands/DebugYandexApi.php:301-316 | the traversal emits exactly `Hits` |
| DebugApi.SearchEntry | app/Console/Commands/DebugYandexApi.php:306-314 | one entry emits exactly its own hit and its children's |
| DebugApi.ConfigFlags | app/Console/Commands/DebugYandexApi.php:92-94 | one flag per script block, set exactly for a long `{"config"` block |
| DebugApi.FirstConfigBlock | app/Console/Commands/DebugYandexApi.php:91-129 | the loop stops at the first config block, whether or not it decodes; none when there is none |
| DebugApi.FindConfigBlock | app/Console/Commands/DebugYandexApi.php:92-127 | the loop finds exactly `FirstConfigBlock` |
| DebugApi.Step1 | app/Console/Commands/DebugYandexApi.php:91-129 | step 1 reports no config block exactly when there is none, otherwise that first block; a JSON error exactly when the block does not decode; a crash before the searches exactly when `config.analytics` is set to a non-array or the decoded value is not an array; a crash after them exactly when `config` is set to a non-array; the searches' hits whenever they ran |
| DebugApi.Step1Sound | app/Console/Commands/DebugYandexApi.php:116-119 | the searches for `s` and `reqId` report only non-array values under paths ending in those keys, also when step 1 then crashes |
| DebugApi.Labels | app/Console/Commands/DebugYandexApi.php:179-256 | the strategies of a run of calls, one per call, in order |
| DebugApi.WithToken | app/Console/Commands/DebugYandexApi.php:199-206 | the chained parameters carry the response's `csrfToken` and every other parameter unchanged |
| DebugApi.PlanFacts | app/Console/Commands/DebugYandexApi.php:179-256 | the strategies begin with A and end with E, always include C, include B exactly on a first chaining, B2 exactly on a second, D exactly off yandex.com, come in rank order, and B follows A and B2 follows B |
| DebugApi.PagesSnoc | app/Console/Commands/DebugYandexApi.php:227-228 | the extra page fetched by a run is the yandex.com page of its D call |
| DebugApi.Extend | app/Console/Commands/DebugYandexApi.php:192-256 | a further call leaves the earlier calls, their responses and whether they were fatal as they were |
| DebugApi.Start | app/Console/Commands/DebugYandexApi.php:181-192 | a first call shaped as strategy A starts a run that fetched no extra page |
| DebugApi.Step | app/Console/Commands/DebugYandexApi.php:192-256 | a call that follows a non-fatal last call by the strategy chain extends the run |
| DebugApi.CallApi | app/Console/Commands/DebugYandexApi.php:259-299 | a call is appended to the calls made, answered as a function of the calls so far, and earlier answers do not change |
| DebugApi.Chain | app/Console/Commands/DebugYandexApi.php:179-209 | strategies A, B and B2 make a run that crashed exactly when its last call was fatal, reaches C otherwise, and fetched no extra page |
| DebugApi.Rest | app/Console/Commands/DebugYandexApi.php:211-256 | continuing with C completes a run that ends as the chain says, crashed exactly on a fatal call and with the yandex.com page fetched for D |
| DebugApi.Tail | app/Console/Commands/DebugYandexApi.php:222-256 | after C the run goes on with D (off yandex.com) and E, and ends as the chain says |
| DebugApi.PlanStep | app/Console/Commands/DebugYandexApi.php:195-256 | the strategy after each planned one is the next one of the plan, when the gates agree with it |
| DebugApi.PlanPlaces | app/Console/Commands/DebugYandexApi.php:181-201 | A comes only first, and B only second and only on a first chaining |
| DebugApi.RunHead | app/Console/Commands/DebugYandexApi.php:181-192 | a run starts with strategy A |
| DebugApi.RunNext | app/Console/Commands/DebugYandexApi.php:195-256 | in a run each strategy is the successor of the previous one given its response |
| DebugApi.RunFollowsPlan | app/Console/Commands/DebugYandexApi.php:179-256 | every call of a run is the call the plan foresees at its place |
| DebugApi.GatedFollowsPlan | app/Console/Commands/DebugYandexApi.php:179-256 | a run's strategies are a prefix of the plan, and the whole plan when it does not crash |
| DebugApi.ParamsNameOrg | app/Console/Commands/DebugYandexApi.php:181-250 | the parameters of A, C and D all name the org id as `businessId` |
| DebugApi.SurvivingRun | app/Console/Commands/DebugYandexApi.php:179-256 | a run that does not crash starts with A and ends with E, keeps rank order, has B exactly when A's response gates, B2 exactly when B's does too, and D exactly off yandex.com |
| DebugApi.ShapedNamesOrg | app/Console/Commands/DebugYandexApi.php:181-250 | every call other than B and B2 names the org id as `businessId` |
| DebugApi.ChainedKeepsOrg | app/Console/Commands/DebugYandexApi.php:199-207 | B and B2 send the `businessId` of the call they chain from |
| DebugApi.RunSendsBusinessId | app/Console/Commands/DebugYandexApi.php:179-256 | every call of a run sends the org id as `businessId` |
| DebugApi.Strategies | app/Console/Commands/DebugYandexApi.php:173-256 | step 3 makes a run following the strategy chain, ends it as the chain says, crashed exactly on a fatal call, and fetches the yandex.com page for D |
| DebugApi.ReportConfig | app/Console/Commands/DebugYandexApi.php:91-129 | step 1 stops at the first config block and reports `Step1` |
| DebugApi.SearchConfig | app/Console/Commands/DebugYandexApi.php:116-122 | a decoded array is searched for `s` and `reqId` from the top; the report is the crash after the searches exactly when `config` is set to a non-array |
| DebugApi.ReadRequestId | app/Console/Commands/DebugYandexApi.php:145-171 | step 2 re-reads the same block: it dies exactly as `Step2Dies` says, and yields `config.requestId`, or `''` without a config |
| DebugApi.Handle | app/Console/Commands/DebugYandexApi.php:14-257 | the command fetches the canonical reviews page first and reports step 1; a crash in step 1 (before or after its searches), a missing org id, or a crash in step 2 make no API call; otherwise the calls follow the strategy chain with the session read from the page |
| DebugApi.JsonErrorKills | app/Console/Commands/DebugYandexApi.php:123-151 | a config block whose JSON step 1 caught kills step 2, which decodes it without a `try` |
| DebugApi.NoIdNoCalls | app/Console/Commands/DebugYandexApi.php:25-143 | without an org id the command stops before any API call, having fetched a reviews URL with an empty id |

## Where the code and its design differ

The model follows the code in each of these cases.

- **Review replacement is not all-or-nothing.** The design says a failed run never destroys stored reviews. In the code, `handle` deletes the user's reviews before `storeReviews` runs (app/Console/Commands/SyncReviews.php:60-64). A review that then makes `Carbon::parse` throw, whose md5 key cannot be built, or whose author name, text or branch is an array, ends the run, and the old reviews are already gone. `SyncReviews.Handle` states the table after such a run: `Apply(WithoutUser(old, user), writes)`.
- **The re-entrancy guard is not atomic.** The design asks for an atomic check-and-set. `ReviewController::sync` checks and then updates without a lock, and the sync command sets `running` without checking (app/Console/Commands/SyncReviews.php:31).
- **`ensureReviewsUrl` keeps the `#fragment`.** Its comment says otherwise (`ServiceUrl.EnsureReviewsUrlKeepsFragment`). `strtok` also skips leading `?` characters, so a link that starts with `?` keeps the text after them.
- **The meta-description fallback is used only when no config block decodes.** A config whose stack items are empty yields the empty page, not the fallback (`ReviewService.PageOf`, `ReviewService.ConfigPage`).
- **Some captured request ids are never read in the scroll loop.** The loop reads only the ids that arrive between its count and its `array_slice`. Ids that arrive after the first harvest and before the first count are counted but never read. So are ids that arrive after a slice and before the next count. `SyncScroll.Tick` and `SyncReviews.Browser` keep these arrivals apart.
- **Some key tests cannot succeed as written.** `debug:yandex` tests a lower-cased key for `orgInfo`, which can never succeed (`DebugScrape.OrgInfoNeverMatches`). When the input link has no org pattern, the command looks for a long digit run only in the final URL (`DebugScrape.InputDigitsIgnored`).
- **The domain regex of `debug:yandex-api` falls back to `yandex.ru` for some hosts.** It needs `yandex.` right after the scheme and `/` right after the next word, so `www.yandex.ru` and `yandex.com.tr` both fall back (`DebugApi.WwwFallsBack`, `DebugApi.DottedMirrorFallsBack`).
- **Step 2 of `debug:yandex-api` can kill the command.** It decodes the config block again without `try`, so a block whose JSON step 1 caught kills the command once an org id exists (`DebugApi.JsonErrorKills`).
- **The sync routes are missing.** routes/api.php registers no route for `sync` or `syncStatus`. Both handlers are modelled anyway.

## Left out

- Browser driving (Chrome launch, `findChrome`'s path probing, navigation, script evaluation, mouse events, `sleep`): I/O and timing. A session is the data it yields: a fault, the rating script's JSON, the request ids captured in each phase, and each scroll's arrivals (`SyncReviews.Browser`). A browser fault before the capture check, or between the capture check and the first scroll, is one `fault`. The second kind covers the `scrollInfo` and `containerRect` evaluations and the `mouseMoved` dispatch (app/Console/Commands/SyncReviews.php:226-268). Either kind leaves the same final row. Faults inside the scroll loop are not modelled.
- HTTP fetching, redirect following and Guzzle cookie jars: networking. Pages, redirect histories and the reviews API's answers are parameters. The API's answer to a call is a function of the calls made before it, which is how the cookies enter.
- `json_decode`, `md5`, `Carbon::parse`, the `url` rule and the script-block regex: foreign calls, given as function parameters.
- Transport failures in the debug commands: a connection error or timeout of Guzzle or the `Http` client (app/Console/Commands/DebugYandexApi.php:42, 228, 273 and 276; app/Console/Commands/DebugYandexScrape.php:26) ends the command with an uncaught exception. The model's `fetch` and `api` are total functions, so every request gets an answer.
- Php.IntCast: reads the decimal in a string, or in a float's rendering, exactly. PHP first rounds a fraction, an exponent or an integer beyond 64 bits to the nearest double. The results differ only for numbers with more than 15 significant digits. A float beyond the 64-bit range wraps modulo 2^64, as on 64-bit builds.
- Php.IntCastOfSmallFloat: states the one rendering `1.0E-5`. No lemma states the cast of a general rendering with a negative exponent, though `IntCast`'s definition covers it.
- ReviewController.PerPage: its own `ensures` speak of integer and null inputs. A string `per_page` is covered by the lemmas beside it (`PerPageOfRenderedInt`, `PerPageOfExponent`, `PerPageOfOneE2`, `PerPageOfFraction`, `PerPageOfTrailingText`, `PerPageOfNonNumber`, `PerPageOfHugeInt`), with `Php.IntCast`'s exact decimal reading.
- Floating point: `round((float) …, 1)` and the meta fallback's `(float)` are opaque `Rating` values (`Rounded`, `FromText`). The zero test on a parsed rating is written out on its text.
- Logging and console output. This includes the diagnostics of `debug:yandex` at app/Console/Commands/DebugYandexScrape.php:44-92 and its step-4 AJAX probe at lines 121-170. It also includes, in `debug:yandex-api`, the config-key prints of step 1, the cookie listing, the `s` parameter (lines 84-89, printed only) and the unused `--pages` option.
- `reqId` generation from `microtime` and `random_int` (app/Console/Commands/DebugYandexApi.php:80): nondeterministic, so it is the parameter `generated`.
- `debug:yandex-api` step 2 is modelled as reading the block step 1 chose. Both steps run the same regex and the same test on the same HTML.
- `extractEmbeddedReviews` (app/Console/Commands/SyncReviews.php:388-413): never called.
- The unused `$orgId` parameter of `fetchAllReviewsViaChrome`: it has no effect.
- The query builder's treatment of an array-valued review id: such a review is keyed by PHP's string cast, `"Array"`.
- Paginator arithmetic and page contents: `ReviewController.Index` states the page size, the review count and the figures, not which rows a page holds.
- Staleness follows Carbon 2's `diffInMinutes` (absolute, truncated). Carbon 3's signed, fractional difference is not modelled.
- Concurrency between a sync run and requests: out of scope. Each run happens at one instant `now`.
- app/Console/Commands/DebugChromeCapture.php and app/Console/Commands/TestScrape.php are not part of this model. The frontend, authentication, the settings controller, routing, the providers and the migrations are not modelled either, apart from the unique key of the reviews table.
- SyncScroll.RunAppends: states the gathered reviews only when every reply holds a list. For other replies `SyncHarvest.HarvestFatalIff` states when a round dies.
- SyncReviews.FetchGathers: states the returned reviews only when every reply holds a list, for the same reason.
- SyncReviews.FetchAllReviewsViaChrome: states the row's final message, not the sequence of intermediate messages.

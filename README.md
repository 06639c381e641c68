# Idoit crowdfunding core, modelled in Dafny

Idoit is a crowdfunding site for personal challenges. Visitors create a
challenge (name, email, title, images, goal), others "support" it with
money and comments, and the pages list popular, fallen and today's
challenges. This project models the serverless handlers under `api/` and
three React pieces: the challenge list page with its five-minute
`localStorage` cache, the challenge card, and the detail panel. The
properties those pieces promise are proved about the model.

How the model is organised:

- **JavaScript semantics the handlers lean on** (`Js`, `Text`):
  - values as they arrive in parsed JSON bodies;
  - truthiness, destructuring, `String(x)`;
  - `parseInt` in full: white space, sign, `0x` prefix, longest digit run;
  - `parseFloat` with exact reals.

  A number is held as its `String` rendering. `JSON.parse` and
  `JSON.stringify` are an abstract codec passed in as a parameter.
- **Intake handlers** (`Support`, `SupportChallenge`, `Comments`): each is
  a pure `Respond` giving the status and the optional appended row. Each
  also has an imperative `Handle` method on the `Store.Database` object,
  which appends exactly that row to its table and changes no other table.
- **Totals** (`SupportTotal`): the sum over the matching rows of
  `supports`, falling back to `support`.
- **Read queries** (`Listing` and the handlers that use it): pure
  functions of a snapshot of the `challenges` table. `order(..desc)` is an
  insertion sort proved sorted and a permutation, and `.limit(n)` is a
  prefix.
- **Creation** (`ChallengeDraft`, `ChallengesApi`, `ChallengeCreate`):
  - the validation and the payload shared by the two creation endpoints;
  - the three-attempt insert chain of `api/challenges/index.js`, over an
    abstract function from payload to database answer.
- **Upload** (`Upload`): naming of uploaded images.
- **Client** (`ChallengesPage`, `ChallengeCard`, `DetailHero`):
  - a `Page` class holding the storage map and the shown sections;
  - a `Carousel` class and a `SupportPanel` class for the detail panel's
    mutable state;
  - functions for the formatting helpers.

The outside world becomes parameters:

- every database query outcome (`queryOk`, `insertOk`, …);
- `Date.now()` (`now`, in milliseconds);
- `Math.random()` (`random` in [0, 1));
- the form parser's result;
- the `fetch` response.

Two features of the code that the model keeps as written:

- The donation intake writes to the `support` table. The total reads
  `supports` first and uses `support` only when the `supports` query
  fails. `SupportTotal.DonationRaisesTotal` is stated for that fallback
  path.
- `safeFilename` replaces every non-alphanumeric character, the dot
  included. So the stored object name carries the extension as `_jpg`,
  not `.jpg`.

## Model

| member | source | states |
|---|---|---|
| Store.UtcMidnight | api/todays-challenge.js:27-28 | `setUTCHours(0,0,0,0)` gives the first millisecond of the instant's UTC day: at most the instant, less than a day before it, same day number |
| Text.Includes | api/challenges/index.js:154-157 | `s.includes(sub)` holds exactly when some window of `s` equals `sub` |
| Text.Prefix | src/pages/Challenges.jsx:112-115 | `substring(0, n)` has length min(n, \|s\|) and is a prefix of `s` |
| Text.ToLowerAscii | api/upload/index.js:60 | `toLowerCase` maps each A-Z to a-z and keeps every other character, length unchanged |
| Text.NatToString | api/upload/index.js:72-74 | the decimal text of a number is non-empty digits with no leading zero, one digit exactly below 10 |
| Text.DigitsValueOfNatToString | api/support.js:22 | reading back the decimal text of n gives n |
| Js.TrimStart | api/support.js:22 | the white space `parseInt` skips is exactly the removed prefix, and the rest does not start with white space |
| Js.NatToStringIsCanonical | api/support.js:22 | the text of a number is canonical digits whose value is the number |
| Js.DigitsThenRest | api/support.js:22 | `parseInt` of canonical digits followed by a non-digit, non-`x` tail reads the digits ("12.7" → 12, "40abc" → 40) |
| Js.ParseUnsignedOfDigits | api/support.js:22 | the unsigned part of `parseInt` reads the digits and not a hexadecimal prefix |
| Js.DigitPrefixOfDigitsThenRest | api/support.js:22 | the longest digit run of digits followed by a non-digit is those digits |
| Js.NegativeDigits | api/support.js:22-23 | `parseInt("-" + d)` is minus the value of d |
| Js.DecimalDigits | src/pages/detail/DetailHero.jsx:327 | `parseFloat` of a run of digits is its exact value |
| Js.ParseDecimalOfDigits | src/pages/detail/DetailHero.jsx:344 | the unsigned part of `parseFloat` reads a run of digits as its value, with no exponent |
| Support.Validate | api/support.js:12-25 | a body that cannot be destructured gets 500; otherwise it is accepted exactly when both fields are truthy and `parseInt(amount)` is a positive integer, refused with 400 otherwise; an accepted row is the id and the parsed amount |
| Support.Respond | api/support.js:8-49 | OPTIONS 200, non-POST 405; a row is appended exactly on a 200 POST; a refused body gives its status, an accepted one the row on insert success or 500 |
| Support.AcceptedAmountIsPositive | api/support.js:15-25 | every appended amount is a positive integer |
| Support.ValidateAccepts | api/support.js:12-34 | two truthy fields whose amount parses to v > 0 are stored as (id, v) |
| Support.ValidateRefusesParse | api/support.js:22-24 | an amount parsing to NaN or ≤ 0 is refused with 400 |
| Support.DigitTextParse | api/support.js:15-22 | canonical digits, as number or text, parse to their value and are truthy when that is positive |
| Support.FractionTextParse | api/support.js:15-22 | digits, a dot and more digits parse to the whole part and are truthy |
| Support.FractionIsTruncated | api/support.js:22-34 | "12.7" and 12.7 are both stored as 12 |
| Support.WholeAmountAccepted | api/support.js:12-34 | a positive whole amount, as number or text, is stored as itself |
| Support.ZeroRefused | api/support.js:15-19 | an amount of 0, as number or text, is refused with 400 |
| Support.NegativeTextParse | api/support.js:22 | a minus sign before canonical digits parses to their negation |
| Support.NegativeAmountRefused | api/support.js:22-24 | a negative amount, as number or text, is refused with 400 |
| Support.Handle | api/support.js:8-49 | the `support` table grows by exactly the step's row and no other table changes |
| Support.HandleKeepsAmountsPositive | api/support.js:15-36 | a ledger of positive amounts stays one after any request |
| SupportChallenge.Respond | api/support-challenge.js:19-63 | OPTIONS 200, non-POST 405; an appended row is the validated row of a POST whose insert succeeded; a refusal gives its status |
| SupportChallenge.SameAsSupport | api/support-challenge.js:24-63 | the duplicate handler answers and appends exactly as `api/support.js` for every request |
| SupportChallenge.Handle | api/support-challenge.js:24-59 | appends exactly the step's row to `support`, nothing elsewhere |
| SupportChallenge.HandleKeepsAmountsPositive | api/support-challenge.js:29-50 | positive amounts are preserved |
| Comments.Validate | api/comments.js:26-33 | undestructurable body 500; accepted exactly when `challengeId` and `content` are truthy, else 400; the row is the two fields |
| Comments.Respond | api/comments.js:19-57 | OPTIONS 200, non-POST 405; a row is appended exactly for a valid POST whose insert succeeds (200); a failed insert gives 500 |
| Comments.Handle | api/comments.js:24-54 | the `comments` table grows by exactly that row, nothing else changes |
| Comments.HandleKeepsCommentsFilled | api/comments.js:29-44 | every stored comment keeps a truthy id and content |
| SupportTotal.ForChallenge | api/support/total.js:43-46 | the matching rows are exactly those whose id renders as the parameter |
| SupportTotal.Respond | api/support/total.js:9-38 | OPTIONS preflight, non-GET 405, missing id 400, missing configuration 500; a total is returned exactly for a GET with an id when configured |
| SupportTotal.TotalIsSumOfMatchingRows | api/support/total.js:43-86 | the total is the sum over `supports` when that query succeeds (0 for no rows), over `support` when only it succeeds, and 0 when both fail |
| SupportTotal.SumAppend | api/support/total.js:80-83 | the sum of a concatenation is the sum of the parts |
| SupportTotal.SumPermutation | api/support/total.js:80-83 | the sum does not depend on row order |
| SupportTotal.ReplyIgnoresRowOrder | api/support/total.js:43-86 | the reply is the same for any order of either table's rows |
| SupportTotal.TotalAfterAppend | api/support/total.js:63-67 | a new row adds its amount to its own challenge's total only |
| SupportTotal.TotalOfPositiveRowsIsNonNegative | api/support/total.js:80-83 | a ledger of positive amounts sums to ≥ 0, and to 0 only when empty |
| SupportTotal.DonationRaisesTotal | api/support/total.js:52-70 | after an accepted donation, the fallback total grows by exactly the parsed amount |
| Listing.PrependSorted | api/challenges.js:88-91 | a row outranking a descending sequence can head it |
| Listing.HeadOutranksAll | api/challenges.js:88-91 | the head of a descending sequence outranks every row |
| Listing.OutranksRearrangement | api/challenges.js:88-91 | outranking is kept under rearrangement |
| Listing.Insert | api/challenges.js:88-91 | insertion into a descending sequence keeps it descending and adds exactly the row |
| Listing.OrderDesc | api/challenges.js:88-91 | `.order(col, desc)` is descending and a permutation of the table |
| Listing.PrefixOutranksRest | api/challenges.js:31-35 | in a descending sequence a prefix outranks the rest |
| Listing.PrefixSorted | api/challenges.js:31-35 | a prefix of a descending sequence is descending |
| Listing.PrefixRemainder | api/challenges.js:31-35 | what a prefix leaves out is exactly the remainder |
| Listing.TopIsBest | api/challenges.js:31-35 | `.order(desc).limit(n)` gives min(n, \|s\|) rows, descending, from the table, and no left-out row outranks a returned one |
| Listing.TopRowsFromTable | api/challenges.js:31-35 | every row of a top-n query is a table row |
| Listing.Newest | api/challenges.js:72-79 | the latest-row fallback is null exactly for an empty table, otherwise a row no row is newer than |
| Listing.PickIndex | api/challenges.js:82 | `Math.floor(Math.random() * len)` is a valid index |
| Listing.CreatedTodayRows | api/challenges.js:54-66 | the window filter keeps exactly the rows created between today's UTC midnight and the next |
| Listing.TodayByCreation | api/todays-challenge.js:24-64 | the answer is one row or 500, and a returned row is from the table |
| Listing.TodayByCreationChoice | api/challenges.js:52-84 | a row created today is chosen when there is one; otherwise the latest row; null exactly for an empty table |
| ChallengeDraft.NormalizeImages | api/challenges.js:127-156 | a string is kept exactly when it parses as JSON (else 400); an array is stringified; another falsy value gives 400; anything else passes unchanged |
| ChallengeDraft.NormalizedImagesShape | api/challenges.js:127-156 | a stored images value is never an array: JSON text, the stringified array, or a truthy non-array |
| ChallengeDraft.NormalizeImagesIdempotent | api/challenges/index.js:85-116 | with a codec whose output parses, normalising again changes nothing |
| ChallengeDraft.FullDraft | api/challenges.js:158-182 | the payload carries the client's name, email, title and images, a truthy status, today's UTC date as `start_date`, and `end_date` 14 days later when present |
| ChallengeDraft.DefaultsFill | api/challenges.js:169-182 | each of motivation, plan, status, progress, likes and money keeps the client's value when truthy and otherwise takes its default ("", "", "In Progress", 0, 0, 0) |
| ChallengesApi.WithId | api/challenges.js:16-21 | exactly the rows with that id |
| ChallengesApi.FallenRows | api/challenges.js:42-46 | exactly the Fallen rows, each at most as often as in the table |
| ChallengesApi.Get | api/challenges.js:96-101 | a failed query is answered 500; every other answer is one row or a list (the branches are the lemmas below) |
| ChallengesApi.IdTakesPrecedence | api/challenges.js:16-24 | with an id, whatever `type` says: exactly one matching row is returned as that row; no match or several matches give 500 (`.single()`) |
| ChallengesApi.PopularBranch | api/challenges.js:30-38 | at most three rows by likes descending; no left-out row has more likes than a returned one |
| ChallengesApi.FallenBranch | api/challenges.js:41-49 | exactly the Fallen rows, with their multiplicities, newest first |
| ChallengesApi.TodayBranch | api/challenges.js:52-84 | a row created today when any exists; otherwise the newest row or null |
| ChallengesApi.DefaultBranch | api/challenges.js:86-94 | every row, newest first |
| ChallengesApi.Post | api/challenges.js:104-207 | undestructurable body 500, missing name/email/title 400; a row is inserted (201) exactly for valid fields, accepted images and a successful insert, and it is the full payload |
| ChallengesApi.CreatedRunsTwoWeeks | api/challenges.js:158-182 | a created challenge starts today, ends 14 days later, and is "In Progress" unless a status was given |
| ChallengesApi.Respond | api/challenges.js:3-211 | OPTIONS preflight; GET dispatch; POST creation; any other method 405; only a POST inserts, and then with 201 |
| ChallengesApi.Handle | api/challenges.js:104-210 | appends exactly the inserted payload to the accepted inserts, nothing else changes |
| ChallengeCreate.RetryDraft | api/challenges/index.js:163-168 | the retry payload is the first one with `start_date` a full timestamp |
| ChallengeCreate.BasicDraft | api/challenges/index.js:181-189 | the last-resort payload has no status, progress, likes or date columns |
| ChallengeCreate.Chain | api/challenges/index.js:143-235 | one to three payloads tried in order; a first failure not about a date or constraint stops at once with 500; a date or constraint failure is retried, and a failed retry goes on to the basic payload; 201 exactly when one was accepted, which is the last tried; every earlier one failed |
| ChallengeCreate.Respond | api/challenges/index.js:38-116 | OPTIONS 200, non-POST 405, no client or an undestructurable body 500, missing field 400, images that do not normalise 400; a valid request runs the chain over the three payloads with the normalised images |
| ChallengeCreate.CreatedIffSomeAttemptSucceeded | api/challenges/index.js:150-231 | 201 exactly when some tried payload was accepted; a second try happens exactly after a date or constraint error; a failed second try is followed by the third |
| ChallengeCreate.DraftsShape | api/challenges/index.js:121-189 | first payload date-only `start_date` and no `end_date`; second differs only by a timestamp `start_date`; third has no date or status; all carry the client's name, email, title and images |
| ChallengeCreate.MaskedForLog | api/challenges/index.js:59-61 | the logged copy has a truthy email replaced by "***@***" and every other field unchanged |
| ChallengeCreate.InsertKeepsOriginalEmail | api/challenges/index.js:59-74 | every tried payload carries the client's own email, never the masked one |
| ChallengeCreate.Handle | api/challenges/index.js:143-235 | the status and the number of attempts are those of the chain; at most one payload is appended and nothing else changes |
| PopularChallenges.Respond | api/popular-challenges.js:19-44 | OPTIONS preflight, non-GET 405, failed query 500; a list exactly for a successful GET |
| PopularChallenges.ReturnsTopThree | api/popular-challenges.js:27-35 | min(3, \|s\|) rows by likes descending; no left-out row has more likes |
| FallenChallenges.Respond | api/fallen-challenges/index.js:22-47 | OPTIONS preflight, non-GET 405, query error 500; a list exactly for a successful GET |
| FallenChallenges.ReturnsLatestFallen | api/fallen-challenges/index.js:33-47 | min(3, number of Fallen rows) rows, a sub-multiset of the Fallen rows of the table, newest first; no left-out Fallen row is newer |
| TodaysChallenge.Respond | api/todays-challenge.js:19-67 | OPTIONS preflight, non-GET 405, failed window query 500; a GET answers by the created-today rule |
| TodaysChallenge.Selection | api/todays-challenge.js:27-64 | a row created today when any exists; otherwise the newest row or null; a failed fallback query gives 500 |
| TodaysChallengeIndex.Candidates | api/todays-challenge/index.js:33-40 | at most ten rows, each starting today; non-empty when any row starts today |
| TodaysChallengeIndex.Respond | api/todays-challenge/index.js:22-70 | OPTIONS preflight, non-GET 405, failed query 500; a returned row is from the table |
| TodaysChallengeIndex.Selection | api/todays-challenge/index.js:42-70 | a row starting today when any exists; otherwise the newest row or null, and 500 when that query fails |
| Upload.OriginalName | api/upload/index.js:59 | a missing or empty name becomes "image"; a given one is kept |
| Upload.AfterLastDot | api/upload/index.js:60 | `split(".").pop()` is the dot-free suffix after the last dot, or the whole name |
| Upload.AfterLastDotOfJoin | api/upload/index.js:60 | the type of `stem.ext` is `ext`, however many dots the stem has |
| Upload.AfterLastDotOfDotless | api/upload/index.js:60 | a dotless name is its own type |
| Upload.SafeFilename | api/upload/index.js:73 | same length; ASCII letters and digits kept, every other character "_" |
| Upload.SafeFilenameIsSafe | api/upload/index.js:73 | the result has only letters, digits and "_" and is a fixed point |
| Upload.StoragePath | api/upload/index.js:74-78 | the path is "challenges/", the timestamp, "-" and the safe name |
| Upload.StoragePathReadsBack | api/upload/index.js:72-78 | the timestamp and the safe name can be read back from the path |
| Upload.ContentType | api/upload/index.js:79 | "jpg" is served as "image/jpeg", any other type as "image/" + type |
| Upload.AcceptedContentTypes | api/upload/index.js:61-79 | every allowed file is stored as jpeg, png or gif |
| Upload.Respond | api/upload/index.js:30-94 | OPTIONS preflight, non-POST 405, parser failure 500, no file 400; stored exactly for an allowed type and a successful upload, at the safe path with the mapped content type |
| Upload.DisallowedTypeRefused | api/upload/index.js:63-65 | a disallowed type gives 400 whatever the storage would answer |
| Upload.UnnamedFileRefused | api/upload/index.js:59-65 | a file without a name is refused with 400 |
| Upload.ImageIsNotAllowed | api/upload/index.js:59-63 | the default name "image" has no allowed type |
| ChallengeCard.FirstImage | src/components/ChallengeCard.jsx:14-22 | the result is truthy; a falsy or unparseable images value gives the placeholder |
| ChallengeCard.FirstImageOfArray | src/components/ChallengeCard.jsx:17-18 | a parsed array gives its truthy first element, else the placeholder |
| ChallengeCard.StatusClass | src/components/ChallengeCard.jsx:7-11 | green, sky and yellow for the three statuses, no class for any other |
| ChallengeCard.StatusClassesDistinct | src/components/ChallengeCard.jsx:7-11 | the three statuses get three different classes |
| ChallengeCard.LinkPath | src/components/ChallengeCard.jsx:25 | the link is "/challenge/detail/" followed by the id |
| ChallengeCard.LinkPathRoundTrip | src/routes/AppRoutes.jsx:12 | the detail route reads the id back from the link |
| ChallengeCard.LinkPathInjective | src/components/ChallengeCard.jsx:25 | different challenges link to different pages |
| DetailHero.RemoveCommasAppend | src/pages/detail/DetailHero.jsx:401-403 | comma removal distributes over concatenation |
| DetailHero.RemoveCommasOfDigits | src/pages/detail/DetailHero.jsx:401-403 | digits contain no commas to remove |
| DetailHero.WellGroupedStep | src/pages/detail/DetailHero.jsx:401-403 | a well-grouped text, a comma and three digits is well grouped |
| DetailHero.RemoveCommasStep | src/pages/detail/DetailHero.jsx:401-403 | removing commas from group, comma and digits gives the ungrouped text and the digits |
| DetailHero.CommaVanishes | src/pages/detail/DetailHero.jsx:402 | a lone comma is removed |
| DetailHero.GroupIsWellGrouped | src/pages/detail/DetailHero.jsx:401-403 | grouped digits have a first group of 1-3 and later groups of 3, and without commas are the digits again |
| DetailHero.FormatMoney | src/pages/detail/DetailHero.jsx:402 | a missing amount is "0" |
| DetailHero.FormatMoneyOfNat | src/pages/detail/DetailHero.jsx:401-403 | for a natural amount: without commas it is the decimal text; groups are well formed; below 1000 it is unchanged |
| DetailHero.NatToStringBelowThousand | src/pages/detail/DetailHero.jsx:401-403 | a number below 1000 has at most three digits |
| DetailHero.CarouselSteps | src/pages/detail/DetailHero.jsx:392-398 | with more than one image both steps stay in range, undo each other and are +1 / -1 modulo n |
| DetailHero.Carousel.constructor | src/pages/detail/DetailHero.jsx:32 | no images and index 0 |
| DetailHero.Carousel.Load | src/pages/detail/DetailHero.jsx:108-114 | the images become the parsed array of `images \|\| "[]"`, or none on a parse failure; the index is kept |
| DetailHero.Carousel.Next | src/pages/detail/DetailHero.jsx:396-398 | the index follows `NextIndex`, the images are kept |
| DetailHero.Carousel.Prev | src/pages/detail/DetailHero.jsx:392-394 | the index follows `PrevIndex`, the images are kept |
| DetailHero.Carousel.Select | src/pages/detail/DetailHero.jsx:517 | a thumbnail click shows that image |
| DetailHero.Carousel.Current | src/pages/detail/DetailHero.jsx:472 | the shown source is truthy: the current image when it exists and is truthy, otherwise "/placeholder.svg" |
| DetailHero.RoundPercent | src/pages/detail/DetailHero.jsx:159-161 | `Math.round(total / money * 100)` is the integer within half a unit of 100·total/money, half rounding up |
| DetailHero.BarWidth | src/pages/detail/DetailHero.jsx:715 | the bar width is the percent capped at 100 |
| DetailHero.ProgressIsNotCapped | src/pages/detail/DetailHero.jsx:155-163 | a goal raised twice reads 200% on a full bar |
| DetailHero.FullBarExactly | src/pages/detail/DetailHero.jsx:159-161 | the bar is full exactly when 200·total ≥ 199·goal, i.e. when the rounded percent reaches 100 |
| DetailHero.SupportPanel.constructor | src/pages/detail/DetailHero.jsx:42-43 | total and percent start at 0 |
| DetailHero.SupportPanel.Refresh | src/pages/detail/DetailHero.jsx:134-185 | nothing without an id; the total becomes the reply's total or the fallback 80; the percent is recomputed only for a positive goal |
| DetailHero.AgeText | src/pages/detail/DetailHero.jsx:417-435 | a missing date shows "", then "just now", "n min ago", "n hours ago"; full and invalid dates are left to the locale |
| DetailHero.CommentAgeBuckets | src/pages/detail/DetailHero.jsx:416-443 | under a minute (or in the future) "just now"; under an hour whole minutes in 1..59; under a day whole hours in 1..23; from a day on the full date |
| DetailHero.CommentLabel | src/pages/detail/DetailHero.jsx:416-443 | a comment shows "" without a date, "just now" under a minute, "n min ago" under an hour and "n hours ago" under a day, with n the whole minutes or hours; the locale's date otherwise |
| DetailHero.DaysLeft | src/pages/detail/DetailHero.jsx:447-453 | never negative, and 0 without an end date or with an unreadable one |
| DetailHero.DaysLeftIsCeil | src/pages/detail/DetailHero.jsx:449-453 | a past end gives 0; a future one the number of started days left |
| DetailHero.ChooseAmount | src/pages/detail/DetailHero.jsx:324-344 | a preset is sent as parsed; the custom text raises the toast exactly when empty or ≤ 0, and is otherwise sent as parsed |
| DetailHero.CustomWholeAmount | src/pages/detail/DetailHero.jsx:325-344 | a typed whole number is sent as itself, except 0, which raises the toast |
| DetailHero.PresetSent | src/pages/detail/DetailHero.jsx:324-344 | a preset of n is sent as n |
| DetailHero.PresetDonationStored | src/pages/detail/DetailHero.jsx:337-345 | end to end: a preset of n is sent as n and the intake stores exactly n |
| ChallengesPage.CacheKey | src/pages/Challenges.jsx:139 | every key is stored as "idoit_" + key, which gives the key back |
| ChallengesPage.CacheKeyInjective | src/pages/Challenges.jsx:139 | different keys never share an item |
| ChallengesPage.LookupTouchesOnlyItsKey | src/pages/Challenges.jsx:138-157 | a lookup changes no other item and adds none |
| ChallengesPage.ExpiryBoundary | src/pages/Challenges.jsx:143-152 | an entry is served at exactly 300000 ms; at 300001 ms it is removed and not served |
| ChallengesPage.UnreadableAndMissing | src/pages/Challenges.jsx:139-156 | a missing item reads null and changes nothing; an unreadable one reads null and is removed |
| ChallengesPage.SaveThenGet | src/pages/Challenges.jsx:160-166 | saving and reading at once gives the data back; no other item changes |
| ChallengesPage.StatusMessage | src/pages/Challenges.jsx:111-116 | the status line with at most 100 body characters; its length follows |
| ChallengesPage.FetchJson | src/pages/Challenges.jsx:99-135 | no toast exactly for an ok response whose text parses, and then the parsed value; on any failure null and a toast starting with the section label |
| ChallengesPage.ErrorTextTruncated | src/pages/Challenges.jsx:108-116 | a failed response's toast carries at most 100 body characters |
| ChallengesPage.Page.constructor | src/pages/Challenges.jsx:12-22 | empty lists, no today's challenge, all fetch times 0 |
| ChallengesPage.Page.GetFromCache | src/pages/Challenges.jsx:138-157 | returns the lookup value and leaves the storage as the lookup prescribes |
| ChallengesPage.Page.SaveToCache | src/pages/Challenges.jsx:160-166 | writes `{data, timestamp: now}` under the key |
| ChallengesPage.Page.FetchSection | src/pages/Challenges.jsx:168-253 | an unforced cache hit is shown and returned with no request; otherwise the fetch result is returned, and a truthy one is shown, saved and stamped while a null one changes nothing |
| ChallengesPage.FetchedThenCached | src/pages/Challenges.jsx:172-190 | a successful fetch is served from the cache for the next five minutes |

## Left out

- CORS headers, `console` logging, the Supabase client, `formidable`, `fs`
  and `getPublicUrl`: I/O and library calls. Query and insert outcomes
  are parameters; the public URL is the storage path.
- Floating point: amounts are integers and `parseFloat` is exact, so
  rounding, values beyond 2^53 and money columns holding fractions are
  not modelled. `PresetDonationStored` assumes the number sent renders
  as its decimal digits.
- Strings are sequences of code points, not UTF-16 units.
  `toLowerCase` is modelled for ASCII letters only.
- Dates: instants are integer milliseconds.
  - The local-time `setDate(+1)` / `setDate(+14)` is taken as whole UTC
    days, so daylight-saving changes are not modelled.
  - `toLocaleDateString` is a label (`FullDate`), not text.
  - The several `Date.now()` readings within one call are a single `now`,
    except the two readings of the retry chain.
- The database's ordering of ties and of NULL `likes`, and the order of
  an unordered query, are not modelled. A filter keeps table order, and
  the `start_date` query takes the first ten matches.
- Column types: `challenge_id` is compared through `String()` of the
  value sent. In the `challenges` table, the id is text, likes and
  `created_at` are integers, and `start_date` is a day number.
- `ChallengeCreate.MaskedForLog`: object spread of a non-object body is
  taken as `{}`; array and string spreads are not modelled.
- The outer `catch` of `fetchSupportInfo` (setting 0 and 0) is not
  modelled: nothing in the modelled path throws. The dev fallback total
  of 80 is kept as written.
- `DetailHero.Carousel.Load`: a parsed value that is not an array is
  taken as no images.
- `ChallengesPage.Lookup`: a stored item is either an entry the page
  wrote or unreadable. JSON that parses to something else (a `null`, an
  entry without a timestamp) is not modelled. Cached data is the value
  itself, not its JSON round-trip.
- `ChallengesPage.FetchJson`: a failing `response.text()` is not
  modelled. The `apiUrl` prefix of the requested URLs is left out.
- The realtime subscriptions, the 30-minute polling, `refreshAllData`,
  `Promise.all` and timers are not modelled; they are concurrency and
  scheduling around the fetchers that are.
- The `getFirstImage` of `src/pages/Challenges.jsx` (lines 314-322) is
  the same function as the card's and is modelled once, by
  `ChallengeCard.FirstImage`.
- `Support.NegativeAmountRefused` requires n > 0: the zero case is
  `Support.ZeroRefused`. Hexadecimal amounts such as "0x10" follow
  `Js.ParseInt` but have no lemma of their own.
- The status badge of the detail panel and the remaining markup of the
  pages are not modelled.

# URL shortener: short-code generator and URL table

A Dafny model of the logic of a small Go URL-shortening service:

- the short-code generator (`GenerateShortCode` and the older `generateShortCode`), which maps random bytes onto a fixed 62-symbol alphabet;
- the URL record and the unique index on its `short_code`;
- the six HTTP handlers (shorten, redirect, stats, list, edit, delete), with the MongoDB collection replaced by an in-memory table.

Modules:

- `Wrappers` (`wrappers.dfy`): the `Option` datatype.
- `ShortCodeHelpers` (`short_code_helpers.dfy`): the alphabet, the generator and the modulo-bias count. The generator is an imperative method (a random buffer, a separate result buffer, a loop). It is proved equal to the function `Generate`, and the generator's promises are proved about `Generate`.
- `Models` (`models.dfy`): the `URL` record, the table as a map from short code to record, and `InsertOne` as the unique indexes see it. It also has the click update and the fact that N redirects give N clicks.
- `Api` (`api.dfy`): `getEnvOrDefault`, the legacy generator (in place on a byte array), the retry loop, and the class `UrlTable`. Its field `records` is the collection. Every handler is a method that returns a `Status`, and its `ensures` give the new table in terms of the old one. Every mutating handler keeps `Valid()`: unique codes, unique ids, short URL = base URL + code, clicks non-negative. Every mutating handler also keeps `ClicksNeverDecrease`.
- `Scenarios` (`scenarios.dfy`): request sequences on a fresh table, proved from the handlers' contracts. These include the finding below.

Inputs the Go code takes from its environment become parameters:

- The random bytes are a stream `source`. Go's random reader either fills the whole buffer or reports an error, so a read fails exactly when the stream is shorter than the requested length.
- Each turn of the retry loop is an `Attempt`: its random stream plus a flag saying whether its existence count fails.
- Each store call whose error the handler checks gets a failure flag.
- The new record's ObjectID and the current time are parameters.
- The process environment of `getEnvOrDefault` is a map.

Quirks of the code that the model keeps:

- Deleting an unknown code answers 500, not 404.
- A generated-code record is stored under the empty code, not under the generated code (see Findings).
- There is no maximum-attempts cutoff on the retry loop.

## Model

| member | source | states |
|---|---|---|
| ShortCodeHelpers.CharsetSymbols | api/helpers/ShortCodeHelpers.go:9 | the alphabet has 62 symbols, position i holding the i-th of a–z, A–Z, 0–9 |
| ShortCodeHelpers.CharsetAlphabet | api/helpers/ShortCodeHelpers.go:9 | the alphabet is 62 pairwise distinct symbols, and a character is in it exactly when it is an ASCII letter or digit |
| ShortCodeHelpers.EncodeAt | api/helpers/ShortCodeHelpers.go:25-27 | symbol i of the code is `charset[b[i] % 62]` for random byte i |
| ShortCodeHelpers.GenerateProperties | api/helpers/ShortCodeHelpers.go:12-30 | length <= 0 gives InvalidLength and ""; failing entropy gives EntropyFailure and ""; success exactly when length > 0 and the bytes are available, then exactly `length` symbols, each `charset[byte % 62]`, all alphanumeric |
| ShortCodeHelpers.GenerateShortCode | api/helpers/ShortCodeHelpers.go:12-30 | the method (random buffer only read, a separate result buffer filled in a loop) returns exactly what `Generate` specifies |
| ShortCodeHelpers.ModuloBias | api/helpers/ShortCodeHelpers.go:26 | of the 256 byte values, 5 map to each alphabet index below 8 and 4 to each other index |
| Models.NewURL | api/main.go:156-163 | a record built by shorten reads back the given id, code, short URL, long URL and creation time; it has 0 clicks, and no last-click time, expiry or owner |
| Models.InsertOne | api/models/url.go:31-35 | an insert is rejected exactly when the short code or the `_id` is taken; otherwise the record is added under its code |
| Models.InsertKeepsIndexed | api/models/url.go:31-35 | an accepted insert keeps every record under its own code and all ids distinct, and adds exactly one key |
| Models.DuplicateCodeRejected | api/models/url.go:16 | after a record is inserted, any second record with the same short code is rejected |
| Models.Clicked | api/main.go:191-195 | a redirect adds exactly one click, sets the last-click time, and changes no other field |
| Models.ClickedAtGeneral | api/main.go:191-195 | k redirects within int64 range add k clicks, leave the time of the last one, and change no other field |
| Models.ClicksCountRedirects | api/main.go:191-195 | N redirects of a fresh record give clicks == N and the last redirect's time |
| Api.GetEnvOrDefault | api/main.go:62-67 | the environment value whenever the key is set, even to "", else the default |
| Api.LegacyGenerateShortCode | api/main.go:70-80 | the in-place variant returns the same encoding of the first `length` bytes; length 0 gives ""; failing entropy gives "" and no error |
| Api.Retry | api/main.go:135-152 | a candidate the loop stops on is absent from the table, has 6 symbols, and all of them are alphanumeric |
| Api.RetryExhausted | api/main.go:135-152 | the loop is still running exactly when every draw and count so far succeeded and every candidate was taken (no iteration bound) |
| Api.UrlTable.CountDocuments | api/main.go:122 | the count for the filter `{short_code: code}` is the number of records whose short-code field is `code`; the unique index keeps it at 0 or 1, and it is 0 exactly when no record has the code |
| Api.UrlTable.ResolveCode | api/main.go:135-152 | the loop method ends exactly as `Retry` on the table says |
| Api.UrlTable.InsertNew | api/main.go:155-173 | 200 with `http://localhost:8081/` + code and the new record stored, or 500 with no change if the store fails or an index rejects |
| Api.UrlTable.ShortenURL | api/main.go:102-174 | 400 on a failed binding; a taken custom code gives 409 and a failed count 500, both with no change; a free custom code is inserted; the generated branch stores the record under "" after the loop finds a free candidate |
| Api.UrlTable.ShortenURLIntended | api/main.go:133-153 | as ShortenURL, but a generated-code success stores a new 6-symbol alphanumeric code that was absent before |
| Api.UrlTable.Redirect | api/main.go:177-201 | unknown code: 404, no change; known code: 301 to its long URL, and exactly that record gains one click and the click time unless the update fails (including at the int64 maximum) |
| Api.UrlTable.GetStats | api/main.go:204-228 | read-only: 404 exactly for an unknown code or failed lookup, else 200 with the record's long URL, code, clicks, creation and last-click time |
| Api.UrlTable.ListURLs | api/main.go:231-249 | read-only: 500 on a store error, else 200 with every record exactly once |
| Api.UrlTable.EditURL | api/main.go:271-306 | 400 for a bad body or an empty URL; 500 on a store error; 404 exactly when the code is unknown or the URL unchanged; otherwise only that record's long URL changes |
| Api.UrlTable.DeleteURL | api/main.go:252-268 | 200 and exactly that record removed when the code exists; an unknown code or a store error gives 500 and no change |
| Scenarios.GeneratedShortenCollidesOnEmptyCode | api/main.go:118-166 | as written: the first generated-code shorten answers with the bare base URL; the second fails with 500 although its candidate was free |
| Scenarios.GeneratedShortenIntendedSucceeds | api/main.go:135-166 | as intended: two generated-code shortens both succeed, under "aaaaaa" and then "bbbbbb" after one collision |
| Scenarios.CustomCodeLifecycle | api/main.go:119-267 | custom code "promo": created (200), refused again (409), redirected (301, clicks 1); editing an unknown code gives 404; deleting gives 200 then 500 |

## Left out

- MongoDB connection setup, ping, disconnect, index creation and its failure, contexts and timeouts, and `GetClient` returning the never-assigned package variable: I/O plumbing. The collection is an in-memory table that starts empty.
- The Gin router, CORS, JSON response bodies and log output: only the status and the returned short URL, location, stats or record list are modelled.
- JSON binding and the `url` validator: an abstract `bindingOk` flag. The `required` rule on `long_url` is modelled as "non-empty".
- `crypto/rand` and `time.Now`: random streams and timestamps are parameters. `primitive.NewObjectID` is an id parameter. An id already in use is rejected by the `_id` index.
- Api.UrlTable.ShortenURL: the retry loop is unbounded in Go. The model runs it over the finite list of attempts supplied, and answers `StillRetrying` (no HTTP answer yet) when the list runs out.
- The race between the existence check and the insert under concurrent requests: operations are sequential. The unique index still rejects a duplicate code at insert.
- Probabilities of the modulo bias: only the counting lemma is stated.
- `IsEmpty`, whose tests exist: its implementation file is not part of this model.
- The local `URL` struct of main.go, used to decode records in redirect, stats and list: the single `models.URL` record is used. The local struct's different decoding shape (no short URL, non-pointer last-click time) is not modelled.
- Api.LegacyGenerateShortCode: a negative length panics in Go's `make`. The model takes a `nat` length instead of modelling the panic.
- `ExpiresAt` and `UserID` are carried in the record, but no code sets or reads them.

## Findings

| source | as written | input that shows it | evidently intended | confidence | as-written member | corrected member |
|---|---|---|---|---|---|---|
| api/main.go:118-159 | `shortCode, err := helpers.GenerateShortCode(6)` inside the loop declares a new `shortCode` that shadows the outer one. The record is built from the outer `shortCode`, which is still "". It is stored under code "" with short URL `http://localhost:8081/`. | two POST /shorten requests without `short_code` on an empty table: the first answers with the bare base URL; the second's insert hits the unique index on "" and answers 500 (this presumes the index that `SetupURLCollection` creates exists) | the record uses the free candidate the loop found (assign with `=`, not `:=`) | high (not executed) | Scenarios.GeneratedShortenCollidesOnEmptyCode (on Api.UrlTable.ShortenURL) | Api.UrlTable.ShortenURLIntended, Scenarios.GeneratedShortenIntendedSucceeds |

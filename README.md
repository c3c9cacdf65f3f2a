# Catalog-id multiplexing of the stremthru addon wrapper, and the AniList lookup tables

The addon wrapper shows a client a single Stremio addon while sending requests on to one
or more upstream addons, which the user configures as an ordered list. A catalog id that
the client sends back names both the upstream and that upstream's own catalog id:

- with exactly one upstream, the id is the upstream's id, byte for byte;
- otherwise it is `<index>::<upstream catalog id>`.

On every catalog or addon-catalog request the wrapper decodes the id (`parseCatalogId`).
If decoding fails it answers with an error and sends nothing on. If it succeeds with an
index of 0 or more, it makes one `ProxyResource` call to that upstream. A negative index,
which the decoder accepts, makes the upstream lookup panic (see "## Findings").

This project models that decoder and its two dispatchers in Dafny, together with the
small pure tables of the AniList integration: month to season, media format to Stremio
type, list ids, and the query inputs of the five named search lists. It then proves
properties of the model.

Files, one module each:

- `wrappers.dfy`: `Option` and `Result`.
- `strings.dfy` (`Strings`): Go's `strings.Index` and `strings.Cut`, with the
  first-occurrence property.
- `strconv.dfy` (`Strconv`): Go's `strconv.Atoi` on a 64-bit platform, and `Itoa` for
  non-negative values. `Atoi` accepts an optional sign and leading zeros. It reports a
  syntax error for a non-digit. It reports a range error when the value leaves int64, or
  when the digits read so far leave uint64 before a later non-digit is reached. The
  contract of `Atoi` ties it to a reference meaning: `IsDecimal` and `DecimalValue`.
- `catalog.dfy` (`Wrap`): `parseCatalogId`, `fetchAddonCatalog` and `fetchCatalog`.
  Each dispatcher is a function that returns an `Outcome`, which is one of:
  - `SendError(err)`;
  - `ProxyResource(params)`, the single outward call with all of its parameters;
  - `IndexPanic(idx)`, Go's index-out-of-range panic on the upstream list.
- `anilist.dfy` (`Anilist`): `getSeason`, `MediaFormat.ToSimple`, `List.GetId`, the
  lookup table `searchListQueryInputByName` with its five `getInput` builders, and
  `IsValidSearchList`. It includes a small calendar, so that `AddDate(0, 3, 0)` is
  modelled down to the day, as Go's date normalisation does it.

The encoder for the id format (`EncodeCatalogId`) is the partner of the decoder. The
code that writes these ids when it lists catalogs is not part of this model, so the
encoder is written from the format itself: the bare id with one upstream, and
`Itoa(index) + "::" + id` otherwise.

The wire format above is meant to be lossless, with a plain decimal index: no sign, and
0 <= index < number of upstreams. Where the code's behaviour differs from that intended
format, the model follows the code:

- The code parses the index with `strconv.Atoi`, so `"+1"`, `"01"` and `"-1"` all
  parse (`Wrap.IndexNotCanonical`, `Wrap.NegativeIndexAccepted`).
- A lossless format would give `encode(decode(s)) == s`. Because of the point above, the
  code gives this only for ids whose index is canonical. The model proves the weaker property that
  holds for every id: re-encoding a decoded id gives an id that decodes to the same
  pair (`Wrap.CheckedRoundTrips`).
- The code does not tell a malformed id from an index out of range: it returns one
  generic "invalid id" error for both a missing separator and an
  index past the end. For an index `Atoi` rejects (not a number, or out of the int64
  range), it returns the `Atoi` error (`IdError.AtoiFailed`).
- With one upstream the code passes every id through unchanged, the empty one included.

## Model

| member | source | states |
|---|---|---|
| `Strings.Cut` | internal/stremio/wrap/catalog.go:19 | `strings.Cut`: the cut is found exactly when the separator occurs somewhere. The id is then `before + sep + after`, and the separator does not start anywhere inside `before` (so this is its first occurrence). When nothing is found, `before` is the whole id and `after` is empty. |
| `Strings.CutAtFirst` | internal/stremio/wrap/catalog.go:19 | Cutting `a + sep + b`, where `sep` does not start inside `a`, gives back exactly `a` and `b`. |
| `Strconv.ParseDigits` | internal/stremio/wrap/catalog.go:23 | The digit loop succeeds exactly for all-digit strings whose value fits in uint64, and then returns that value. All digits but too large gives a range error. |
| `Strconv.ShortDigitsNoRange` | internal/stremio/wrap/catalog.go:23 | At most 19 characters can only fail the digit loop with a syntax error, never a range error. |
| `Strconv.Atoi` | internal/stremio/wrap/catalog.go:23-26 | Succeeds exactly when the input is an optional sign followed by one or more digits and the value fits in int64. It then returns that value. Every error is a `NumError` carrying "Atoi" and the input. Inputs shorter than 19 bytes (Go's fast path) fail only with a syntax error. |
| `Strconv.Itoa` | internal/stremio/wrap/catalog.go:19-30 | The index writer of the reference encoder `EncodeCatalogId`, which is built from the wire format that lines 19-30 read (`Itoa` itself does not occur there). Writes a non-empty string of digits that denotes `n`, with no leading zero. |
| `Strconv.AtoiItoa` | internal/stremio/wrap/catalog.go:23 | `Atoi(Itoa(n)) == n` for every `n` an int64 can hold. |
| `Strconv.AtoiAcceptsSignAndZeros` | internal/stremio/wrap/catalog.go:23 | `"01"` and `"+1"` give 1 and `"-1"` gives -1. `""` and `"-"` are syntax errors. |
| `Wrap.ParseCatalogId` | internal/stremio/wrap/catalog.go:14-31 | On success the index is below the upstream count. There is no lower bound. Every error exit returns `(-1, "", err)`. With any upstream count other than one, an id without `::` is rejected as invalid. |
| `Wrap.SingleUpstreamTransparent` | internal/stremio/wrap/catalog.go:15-17 | With exactly one upstream, every id decodes to `(0, id, nil)`, including ids that contain `::`. |
| `Wrap.SplitsAtFirstSeparator` | internal/stremio/wrap/catalog.go:19-30 | With any other upstream count the id is split at its first `::`, whatever the part before it holds (single colons included). Decoding succeeds exactly when `Atoi` accepts the left part and gives a value below the upstream count. The catalog id is then everything after the first `::`. When `Atoi` fails, its error is returned. When `Atoi` gives a value at or past the upstream count, the result is "invalid id". |
| `Wrap.SingleColonStaysInIndexPart` | internal/stremio/wrap/catalog.go:19-26 | A single colon before the first `::` is part of the index: `"a:b::c"` fails with the `Atoi` syntax error on `"a:b"`. |
| `Wrap.LaterSeparatorsBelongToCatalogId` | internal/stremio/wrap/catalog.go:19-30 | With two or more upstreams, `"1::a::b"` decodes to `(1, "a::b")`. |
| `Wrap.MissingSeparatorRejected` | internal/stremio/wrap/catalog.go:20-22 | `"novalue"` is rejected as an invalid id when there is not exactly one upstream. |
| `Wrap.NonNumericIndexRejected` | internal/stremio/wrap/catalog.go:23-26 | `"abc::x"` is rejected with `(-1, "", Atoi syntax error on "abc")`. |
| `Wrap.IndexPastEndRejected` | internal/stremio/wrap/catalog.go:27-29 | Every index `Atoi` accepts at or past the upstream count is rejected as invalid, however it is spelt (`"+2"`, `"02"`), and for every upstream count other than one (zero included). |
| `Wrap.TwoOfTwoRejected` | internal/stremio/wrap/catalog.go:27-29 | With two upstreams, `"2::x"` fails as an invalid id. |
| `Wrap.DecodeEncode` | internal/stremio/wrap/catalog.go:14-31 | For every upstream count and every valid index `i`, decoding the encoded `(i, s)` gives `(i, s, nil)`. |
| `Wrap.NegativeIndexAccepted` | internal/stremio/wrap/catalog.go:27-30 | Unless there is exactly one upstream, `"-1::" + s` decodes without error to the index -1. |
| `Wrap.IndexNotCanonical` | internal/stremio/wrap/catalog.go:23 | `"01::x"` and `"+1::x"` both decode to `(1, "x")`, while the format writes that pair as `"1::x"`. |
| `Wrap.ParseCatalogIdChecked` | internal/stremio/wrap/catalog.go:27-30 | Corrected decoder: on success, 0 <= index < upstream count. |
| `Wrap.CheckedDiffersOnlyOnNegative` | internal/stremio/wrap/catalog.go:27-30 | The corrected decoder differs from the written one exactly on the ids the written one accepts with a negative index. |
| `Wrap.CheckedRoundTrips` | internal/stremio/wrap/catalog.go:14-31 | The corrected decoder inverts the encoder, and re-encoding whatever it accepts gives an id that decodes to the same result. |
| `Wrap.FetchAddonCatalog` | internal/stremio/wrap/catalog.go:33-46 | Sends an error exactly when decoding fails, and then makes no forward. Panics exactly on a decoded negative index. Otherwise it makes one forward to `Upstreams[idx].baseUrl` with the addon-catalog resource, the request type, the decoded catalog id, empty extra and the client IP. |
| `Wrap.FetchCatalog` | internal/stremio/wrap/catalog.go:48-62 | The same three-way behaviour, with the catalog resource and `extra` passed through unchanged. |
| `Wrap.FetchCatalogOfEncoded` | internal/stremio/wrap/catalog.go:33-62 | A request for an encoded `(i, s)` is forwarded to upstream `i` with the upstream's own id `s`, by both dispatchers. |
| `Wrap.TwoUpstreamScenario` | internal/stremio/wrap/catalog.go:48-62 | With upstreams `https://a.example` and `https://b.example`, catalog `"1::trending"` is forwarded to `https://b.example` as `"trending"`. |
| `Wrap.NegativeIndexPanics` | internal/stremio/wrap/catalog.go:34-40 | As written, both dispatchers reach the index panic on `"-1::" + s` when there is not exactly one upstream. |
| `Wrap.FetchAddonCatalogChecked` | internal/stremio/wrap/catalog.go:33-46 | The addon-catalog dispatcher over the corrected decoder never panics. Where the written one panics it sends "invalid id"; everywhere else it behaves the same. |
| `Wrap.FetchCatalogChecked` | internal/stremio/wrap/catalog.go:48-62 | The same for the catalog dispatcher. |
| `Anilist.GetSeason` | internal/anilist/anilist.go:85-97 | Months 1-3 are WINTER, 4-6 SPRING, 7-9 SUMMER and 10-12 FALL, each as an if-and-only-if. The function is total over the twelve months, so the panic cannot be reached. |
| `Anilist.ShiftMonths` | internal/anilist/anilist.go:129 | Month arithmetic with year carry: the result lies exactly `k` months after the input. |
| `Anilist.AddThreeMonths` | internal/anilist/anilist.go:129 | `AddDate(0, 3, 0)` always returns a valid date. Whenever the month three months on has the day, it keeps the day and moves exactly three months on. A day that the target month lacks rolls into the month after, by the excess. |
| `Anilist.ThreeMonthsIsNextSeason` | internal/anilist/anilist.go:126-137 | At month granularity, three months later is the next season in the year's order, and the year moves on exactly from FALL. |
| `Anilist.ToSimple` | internal/anilist/anilist.go:230-241 | Every format string maps to `"series"`, `"movie"` or `""`. |
| `Anilist.ToSimpleOfFormat` | internal/anilist/anilist.go:230-241 | TV, TV_SHORT, OVA and ONA are `"series"`. MOVIE, SPECIAL and ONE_SHOT are `"movie"`. MUSIC, MANGA and NOVEL are `""`. Each is an if-and-only-if over the format enumeration. |
| `Anilist.ToSimpleOfUnknown` | internal/anilist/anilist.go:238-239 | A string that names no format maps to `""`. |
| `Anilist.GetId` | internal/anilist/anilist.go:37-39 | The id starts with the user name, then the character `:` comes, and then the list name fills the rest. |
| `Anilist.GetIdSplits` | internal/anilist/anilist.go:37-39 | For a user name without `:`, cutting the id at its first `:` gives back the user name and the list name. |
| `Anilist.GetIdInjective` | internal/anilist/anilist.go:37-39 | For user names without `:`, two lists have the same id exactly when they have the same user name and list name. |
| `Anilist.GetIdCollidesOnColon` | internal/anilist/anilist.go:37-39 | A `:` in a user name can make ids collide: `("a:b", "c")` and `("a", "b:c")` get the same id. |
| `Anilist.IsValidSearchList` | internal/anilist/anilist.go:158-161 | True exactly for `"trending"`, `"this-season"`, `"next-season"`, `"popular"` and `"top-100"`. |
| `Anilist.SearchListByNameKeyed` | internal/anilist/anilist.go:104-156 | Each of the five lists is stored under its own key, and every key maps back to the list it names. Distinct lists have distinct display names. |
| `Anilist.WireNamesDistinct` | internal/anilist/anilist.go:7-22 | The wire names of the seasons, and those of the sort keys, are pairwise distinct, so each names one value. |
| `Anilist.GetInput` | internal/anilist/anilist.go:104-156 | Every builder puts `page` in unchanged. Season and season year are set, always together, exactly for `"this-season"` and `"next-season"`. The first sort key is TRENDING_DESC for trending, SCORE_DESC for top-100 and POPULARITY_DESC for the others. |
| `Anilist.NonSeasonalInputs` | internal/anilist/anilist.go:105-155 | `"trending"` sorts `[TRENDING_DESC, POPULARITY_DESC]`, `"popular"` sorts `[POPULARITY_DESC]` and `"top-100"` sorts `[SCORE_DESC]`. None of the three sets a season or a year. |
| `Anilist.ThisSeasonInput` | internal/anilist/anilist.go:114-125 | `"this-season"` sets the season of today's month and today's year, sorted `[POPULARITY_DESC, SCORE_DESC]`. |
| `Anilist.NextSeasonInput` | internal/anilist/anilist.go:126-137 | For days up to 28, `"next-season"` gives the season after today's and the year after it when today is in FALL (November gives WINTER of the next year), sorted `[POPULARITY_DESC, SCORE_DESC]`. |
| `Anilist.NextSeasonAsWritten` | internal/anilist/anilist.go:128-135 | On every valid date `"next-season"` is sorted `[POPULARITY_DESC, SCORE_DESC]`, and as written it agrees with the intended upcoming season and year if and only if the date is not March 31. |
| `Anilist.NextSeasonSkipsOnMarch31` | internal/anilist/anilist.go:129 | On March 31 of any year, `"next-season"` asks for SUMMER, while the upcoming season is SPRING. |
| `Anilist.UpcomingSeason` | internal/anilist/anilist.go:126-137 | Corrected next-season rule: the season after today's in the year's order, with the year moving on exactly after FALL, whatever the day. |

## Findings

| source | as written | input that shows it | evidently intended | confidence | as-written member | corrected member |
|---|---|---|---|---|---|---|
| internal/stremio/wrap/catalog.go:27 | only `len(ud.Upstreams) <= idx` is checked, so a negative index decodes without error, and `ud.Upstreams[idx]` at lines 40 and 55 then panics | id `"-1::x"` with two upstreams | reject any index outside 0 to len-1 as an invalid id | not executed; high | `Wrap.NegativeIndexPanics` | `Wrap.FetchCatalogChecked` |
| internal/anilist/anilist.go:129 | `time.Now().AddDate(0, 3, 0)` normalises a day the target month lacks into the following month | March 31: June 31 becomes July 1, so the query asks for SUMMER | the season after the current one (SPRING on March 31) | not executed; medium | `Anilist.NextSeasonSkipsOnMarch31` | `Anilist.UpcomingSeason` |

`Wrap.ParseCatalogIdChecked` and `Wrap.FetchAddonCatalogChecked` are the other halves of
the first correction. `Anilist.NextSeasonAsWritten` shows that March 31 is the only
date the second finding affects.

## Left out

- `main.go`: configuration printing, database setup, workers and route registration.
  This is wiring with no logic of its own.
- `ProxyResource` and `SendError`: they are external collaborators. The model gives
  only their call and its parameters (`Outcome`), not the HTTP exchange, relaying the
  upstream's response, or upstream fetch failures.
- `http.ResponseWriter`, `*http.Request` and `context.StoreContext`: only the client
  IP of the context is used, and it is the one field modelled.
- `FetchUserList`, `FetchSearchList`, `FetchMedias` and `FetchAnimeMediaFormatInfo`,
  the GraphQL query types, the query text, and the page constants
  `searchAnimeListMaxPage` and `searchAnimeListPerPage`: network fetches and API
  schema with no logic here.
- The `ListMedia`, `Media` and `MediaFormatInfo` records: plain data that no modelled
  operation uses. `List`'s other fields are carried but not interpreted.
- `time.Now()`: the clock's local date is a parameter (`now`). Time zones and the time
  of day are not modelled. `AddDate` is modelled at day granularity in the proleptic
  Gregorian calendar.
- `time.Month` values outside 1 to 12: `Month` is a closed enumeration, and
  `t.Month()` never yields anything else.
- The `getInput` closures of the lookup table are represented by a tag (`SearchList`)
  that is matched in `GetInput`. The table maps a name to that tag. The display names
  are `SearchListTitle`.
- Go strings are byte sequences and the model uses `seq<char>`. Only ASCII
  characters (`:`, `+`, `-`, digits) are ever compared, so cutting the string and
  parsing digits give the same results.
- Concurrency and request cancellation: each request is an independent straight-line
  computation.
- `Wrap.DecodeEncode`: requires `FitsInt`, meaning the upstream count fits in a Go
  `int` (a Go slice length always does), so every index is a value `Atoi` can return.

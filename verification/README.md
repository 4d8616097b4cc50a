# fourbyte request layer in Dafny

A model of the request-building and error-formatting layer of `fourbyte`, a Go
client for the 4byte signature directory. The directory is a public service
that maps function and event selectors to their textual signatures. The
modelled layer is:

- the request builder (`request.go`). A target URL is an opaque origin, a
  path of segments with a trailing-slash flag, and a query multimap from key to
  an ordered list of values. `addQueryValue` appends to a key's list.
  `setQueryValue` replaces the list. `newRequest` folds the caller's options
  over the URL in order and skips nil entries.
- the filter options (`opts.go`). One datatype has four variants: `Page`,
  `HexSignature`, `TextSignature` and the internal `Id`. A single `Apply`
  gives each variant its closure's effect. Page numbers and ids are rendered
  as `strconv.Itoa` renders them (`Decimal.Itoa`).
- error formatting and status dispatch (`api.go`). `apiError` is modelled
  with the decoded field-to-messages mapping as a sequence of entries. Go's
  map iteration order is an explicit `choice`. An empty message list leads to
  an explicit `IndexPanic` outcome. Messages are sanitised by a character
  filter followed by ASCII lower-casing. Writes turn status 400 and above into
  that error. Reads never look at the status. The model also covers the fixed
  resource paths, the request each public operation sends, and the JSON
  members it posts.
- pagination (`link.go`). `Follow` checks for an empty link, then parses it,
  then sends one option-free GET to exactly the parsed URL.

The transport (`send: Call -> Transport`), JSON decoding of an error body
(`fieldsOf: string -> FieldErrors`) and URL parsing
(`parse: string -> Parsed`) are function parameters. A successful exchange
ends in `Decode(body)`, which names the bytes the Go code would hand to
`json.Unmarshal`.

Modules: `Wrappers` (Option/Result), `Decimal`, `Urls`, `Options`,
`Requests`, `Sanitize`, `ApiErrors`, `Api`, `Links`.

Behaviour of the Go code that is easy to misread:

- the by-id URL has no trailing slash (`/api/v1/signatures/42`);
- create with an empty text posts `{}`, because every `Signature` member is
  `omitempty`;
- any entry of the decoded mapping can be the one `apiError` reports, since
  Go fixes no map iteration order;
- a rejected write whose body is a JSON object with a member whose value is
  not an array (`{"detail": "Request was throttled."}`) decodes to that key
  with no messages, so `apiError` panics on `v[0]` when it visits it; an
  array element that is not a string arrives as an empty message instead
  (`{"k": [1, "m"]}` gives `["", "m"]`, and the raw body is returned);
- following an absent (`null`) link dereferences a nil `*link` and panics
  (see Findings).

## Model

| member | source | states |
|---|---|---|
| Decimal.Itoa | opts.go:27 | the page or id string is non-empty, starts with '-' exactly for negative numbers, and otherwise holds only digits without a leading zero |
| Decimal.ItoaRoundTrip | opts.go:27 | reading the decimal rendering back gives the original number, so the page value carries the number exactly |
| Decimal.ItoaInjective | opts.go:45 | distinct numbers give distinct query values and path segments |
| Urls.AddQueryValue | request.go:33-37 | the value is appended after the key's earlier values, the list grows by one, other keys and the rest of the URL are unchanged, and a well-formed query stays well formed |
| Urls.SetQueryValue | request.go:39-43 | the key then maps to exactly the one value, other keys and the rest of the URL are unchanged |
| Urls.SetThenSet | request.go:39-43 | a second set on a key overwrites the first entirely |
| Urls.SetIdempotent | request.go:39-43 | setting the same value twice equals setting it once |
| Urls.SetThenAdd | request.go:33-43 | an add after a set on one key yields the list [set value, added value] |
| Urls.AddThenAdd | request.go:33-37 | two adds on one key keep both values in call order |
| Options.PageSetsDecimal | opts.go:25-29 | after WithPageNumber(n), "page" maps to exactly the decimal of n, negative exactly when n is, and that value reads back as n |
| Options.Apply | opts.go:25-47 | one option keeps the origin; an id appends its decimal as the last segment and drops the trailing slash without touching the query; a filter keeps the path; every key the option does not target keeps its values; well-formed queries stay well formed |
| Options.PageLastWriteWins | opts.go:27 | two page options leave only the later number, as if the first had not been applied |
| Options.HexAdditive | opts.go:31-35 | two hex filters leave both values under "hex_signature", earlier first |
| Options.TextAdditive | opts.go:37-41 | two text filters leave both values under "text_signature", earlier first |
| Options.DifferentTargetsCommute | opts.go:25-47 | options on different keys, or a query option and an id, give the same URL in either order |
| Options.SameTargetOrderMatters | opts.go:25-47 | two distinct options on the same key (or two ids) give different URLs in the two orders, so order matters exactly there |
| Requests.NewRequestEffect | request.go:15-23 | the built URL has every hex and text value once, in caller order, after the earlier values; "page" holds only the last page option's decimal, or the old values if there is none; one segment per id; nothing else changes |
| Requests.PathEffect | request.go:15-23 | the path gains one decimal segment per id option, in caller order, and the trailing slash survives only when there is none |
| Requests.HexEffect | request.go:15-23 | the hex key's values are the earlier ones followed by every hex filter's value in caller order |
| Requests.TextEffect | request.go:15-23 | the text key's values are the earlier ones followed by every text filter's value in caller order |
| Requests.PageEffect | request.go:15-23 | "page" holds only the last page option's decimal, or the earlier values when there is no page option |
| Requests.OtherKeyEffect | request.go:15-23 | a key no option targets keeps its earlier values |
| Requests.NewRequest | request.go:15-23 | the fold keeps the origin, only extends the seed path, and keeps the query well formed; NewRequestEffect states its whole effect |
| Requests.NewRequestAppend | request.go:17-21 | building over a + b equals building over a, then over b from the result |
| Requests.NewRequestFirstApplied | request.go:17-21 | the first option is applied first, so the build is a left fold in caller order |
| Requests.NilSkipped | request.go:18 | inserting a nil option anywhere leaves the result unchanged |
| Requests.NoOptionsNoChange | request.go:15-22 | with no options, or only nil ones, the URL is returned unchanged |
| Sanitize.Strip | api.go:130 | the result keeps only letters, digits and spaces and is no longer than the input |
| Sanitize.Lower | api.go:131 | upper-case ASCII letters become lower case and every other character stays |
| Sanitize.Sanitized | api.go:130-131 | the message holds only a-z, 0-9 and spaces |
| Sanitize.StripAppend | api.go:130 | stripping splits over concatenation, so it is a filter that keeps character order |
| Sanitize.StripOne | api.go:14 | a single character survives exactly when it is a letter, digit or space |
| Sanitize.StripIdempotent | api.go:130 | stripping twice equals stripping once |
| Sanitize.SanitizedIdempotent | api.go:130-131 | sanitising a sanitised message changes nothing |
| Sanitize.SanitizedDropsPunctuation | api.go:130-131 | clean words followed by punctuation sanitise to the words alone |
| ApiErrors.DescribeField | api.go:126-131 | for the visited entry: an empty message list panics; an empty first message gives the raw body; otherwise "*field* " followed by the sanitised first message |
| ApiErrors.ApiError | api.go:123-134 | an empty mapping gives the raw body; otherwise the result is the description of some entry |
| ApiErrors.EveryFieldCanBeChosen | api.go:126 | every entry of the mapping is the one reported under some iteration order |
| ApiErrors.ApiErrorShape | api.go:123-134 | a text result is the raw body or "*k* m", where k is a field whose first message is non-empty and m is that message sanitised, with only a-z, 0-9 and spaces |
| ApiErrors.NoPanicWhenEveryListNonEmpty | api.go:127 | when every field has at least one message the formatter cannot panic |
| ApiErrors.EmptyListPanics | api.go:127 | a field with no messages panics when it is the one visited |
| ApiErrors.OnlyFirstMessageMatters | api.go:127-131 | changing the messages after the first one never changes the result |
| ApiErrors.SingleField | api.go:126-131 | a one-field mapping with a non-empty first message reports that field and message |
| ApiErrors.UniqueFieldExample | api.go:130-131 | {"text_signature": ["this field must be unique."]} yields "*text_signature* this field must be unique" |
| Api.ReadOutcome | api.go:85-89 | a read fails only on a transport failure; any delivered body is decoded, whatever its status |
| Api.WriteOutcome | api.go:102-109 | a write decodes the body exactly when the status is below 400; at 400 and above it reports the formatted field error or panics with it, and never decodes |
| Api.ReadsIgnoreStatus | api.go:84-90 | two answers with the same body and different statuses give the same list outcome |
| Api.RejectedCreateIsError | api.go:100-108 | a create answered with 400 or more whose fields all carry messages ends in an API error, never a decoded signature |
| Api.GetSignatures | api.go:84-90 | a list never panics, fails exactly on a transport failure, and otherwise decodes the delivered body whatever its status |
| Api.GetSignatureById | api.go:92-98 | a by-id lookup never panics, fails exactly on a transport failure, and otherwise decodes the delivered body whatever its status |
| Api.CreateSignature | api.go:100-110 | a delivered answer is decoded exactly when its status is below 400, the decoded bytes are the body, and a panic needs a status of 400 or more |
| Api.Import | api.go:112-121 | a delivered answer is decoded exactly when its status is below 400, the decoded bytes are the body, and a panic needs a status of 400 or more |
| Api.ThrottledCreatePanics | api.go:123-127 | a rejected create whose body decodes to a key with no messages, such as {"detail": "..."}, panics on the index of the empty list |
| Api.ListCallShape | api.go:84-85 | a list call is a body-less GET to "/api/v1/<resource>" at the service origin; its query holds exactly the caller's hex and text filters in order and the last page number, no other key; it keeps the trailing slash exactly when no id is appended |
| Api.ByIdTargetsIdPath | api.go:92-93 | the by-id GET goes to the resource path plus the decimal id, with no query and no trailing slash |
| Api.FunctionByIdPath | api.go:54-56 | function signatures by id are fetched from /api/v1/signatures/<id> |
| Api.EventByIdPath | api.go:66-68 | event signatures by id are fetched from /api/v1/event-signatures/<id> |
| Api.CreatePayload | api.go:100-102 | create POSTs JSON to the list URL with only "text_signature", or {} when the text is empty |
| Api.SignatureJson | api.go:16-22 | the omitempty marshal: at most five members, none holding a zero value, no member at all for the zero signature, and text_signature present exactly when the text is non-empty |
| Api.ImportPayload | api.go:74-82 | each import POSTs exactly one member, "source_code" or "contract_abi", to its import URL |
| Links.FollowCall | link.go:13-21 | an empty link gives "no link to follow" and a parse failure gives its own error, both before any request exists; otherwise a body-less GET to exactly the parsed URL |
| Links.FollowLink | link.go:13-25 | an error before the request is returned as is; otherwise the result is the read outcome of that one GET |
| Links.EmptyLinkSendsNothing | link.go:14-16 | an empty link fails the same way whatever the transport would answer |
| Links.ParseFailureSendsNothing | link.go:17-20 | a parse failure is returned whatever the transport would answer |
| Links.ParsedLinkFetchedVerbatim | link.go:17-21 | a parsed link is fetched with no options applied, at exactly its URL |
| Links.LastPageNextPanics | link.go:13-14 | following a null `next` panics as written |
| Links.Follow | link.go:13-25 | the method as written: it panics exactly when the `*link` receiver is nil, and on a non-nil link it is FollowLink |
| Links.FollowCorrected | link.go:13-25 | with an absent link treated as empty, following never panics; it fails with "no link to follow" and otherwise behaves as written |
| Links.NextPageNeverPanics | link.go:13-16 | with the correction, following the next link of any response, the last page included, never panics |

## Left out

- `doRequest` and `Get`/`Post` (request.go:25-31,45-62): HTTP I/O, `http.Client`, reading the body and context cancellation. The transport is the `send` parameter and its answer is data.
- JSON marshalling and unmarshalling: success bodies end in `Decode(body)`. Error bodies arrive decoded through `fieldsOf`, which also covers partial decoding: a member whose value is not an array arrives with no messages; an array element that is not a string arrives as an empty message. Request bodies are modelled as their top-level members (`JsonObject`), not as bytes. The decoded result types, such as `ImportResponse`, appear only as the body handed to decoding.
- Query-string encoding (`url.Values.Encode`, `url.Query`), `url.Parse` and the general path cleaning of `JoinPath`. The model works on the multimap and on path segments, and `parse` is a parameter. The decimal id needs no cleaning, so `Id` appends one segment.
- The regular-expression engine and Unicode `strings.ToLower`. They are replaced by a character filter and ASCII lower-casing. Only ASCII survives the filter, so this replacement is exact.
- The host of `BaseUrl` appears only as the opaque `BaseOrigin` constant. Nothing is proved about it.
- Decimal.Itoa: Go's `int` is 32 or 64 bits wide, depending on the platform, and the model uses unbounded integers. Every Go value renders the same way, and no arithmetic in this code can wrap.
- ApiErrors.ApiError: states that the result describes some entry rather than a specific one, because Go does not fix the map iteration order.

## Findings

| source | as written | input that shows it | evidently intended | confidence | as-written member | corrected member |
|---|---|---|---|---|---|---|
| link.go:13-14 | `Follow` is a method on `*link` and compares `*l` with "" before anything else, but `SignaturesResponse.Next`/`Previous` are `*link` and stay nil when the server sends `null` | a list response decoded from `{"next": null, ...}`, then `resp.Next.Follow(ctx)`: the nil dereference panics | an absent link fails with "no link to follow", like an empty one | medium, not executed | Links.LastPageNextPanics | Links.NextPageNeverPanics |

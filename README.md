# go-trackerclient, modelled in Dafny

This project models the decision core of `go-trackerclient`, the Go client
that archival downloaders use to ask a work tracker for items and to report
them done. It covers:

- **Configuration** (`client.go`): `NewTrackerConfig` installs the HTTP
  client, replaces an empty tracker URL by `https://legacy-api.arpa.li`,
  strips one trailing `/`, trims `Project`, `ProjectVersion` and `Username`
  in the caller's own `TrackerConfig`, and reports every empty option, in that
  order, as one combined error. The returned client shares the caller's
  configuration.
- **Request shaping**: `newRequest` targets `<TrackerUrl>/<Project>/<path>`,
  sets five headers, and adds Basic authentication only when a password is
  set. The acquire path is `request` for one item and `multi=<n>/request`
  for more. A limit of 0 is refused before any request is made.
- **Reply mapping** for the acquire endpoint and the completion (`done`)
  endpoint, using the sentinel errors of `errors.go`.
- **The wrappers** `RequestItemContext`, `ItemsDoneContext` and
  `ItemDoneContext`.

Files:

- `errors.dfy` (module `Errors`): `TrackerError`, the three sentinels, and
  the kinds of error value the client returns. This includes the three
  messages it builds with `fmt.Errorf` and go-multierror's `Append`.
- `text.dfy` (module `Text`): the library behaviour the client's output
  depends on. That is `strings.TrimSpace` over Unicode White_Space, and the
  decimal rendering of `%d` with its inverse.
- `client.dfy` (module `Client`): the configuration and client classes,
  the payload records, request shaping, reply mapping and the client calls.
- `wrappers.dfy` (module `Wrappers`): `Option`, which stands for Go's nil.

The network round trip is a parameter `send: Request -> Reply`. It gives the
transport's failure, or the status code together with the decoded
acquire body. Every client call returns an `Exchange` whose `sent` field
lists the requests it handed to the transport. "No request is made" is
then `sent == []`.

`NewTrackerConfig` and `newRequest` change state step by step, so they are
methods. `NewTrackerConfig` updates the fields of the caller's
`TrackerConfig` object in place, through two helper methods: `SetTrackerUrl`
for the URL and `TrimOptions` for the three options. `NewRequest` sets the
headers one at a time on a request value. Each is proved equal to a
specification function (`NormalizeUrl`, `TrimSpace`, `ValidationError`,
`RequestFor`). Path selection, reply mapping and the wrappers branch on
values, so they are functions. The client calls read the shared configuration through
`reads trackerConfig`.

## Behaviour worth noting

Points where the model follows the code as written:

- On the acquire endpoint, status 404 is tested together with 204 first
  (`client.go:136`). The later test of 404 for `ErrNoSuchProject`
  (`client.go:139-141`) can never succeed. `AcquireOutcome` keeps that dead
  branch as written, and its contract proves it never yields
  `ErrNoSuchProject`.
- `RequestItemContext` passes on any error of the underlying call. An empty
  item list gives `""` with no error.
- The completion body's `bytes` field has no `omitempty` tag. A nil map is
  therefore sent as JSON `null`, not left out. The model keeps it as
  `Option<map>`, with `None` for nil.
- The limit is a `uint64`, so 0 is the only value refused.
- The client does not own an immutable copy of the configuration. It holds
  the caller's struct, which `NewTrackerConfig` has already changed even when
  validation fails.
- A tracker URL of exactly `/` normalises to the empty string, not to the
  default. The default is tested before the slash is stripped.
- `NewTrackerConfig` trims the three options first (`TrimOptions`) and then
  checks them. The code trims and checks one option at a time. Each check
  reads only its own trimmed option, so both orders give the same
  configuration and the same error.

## Model

| member | source | states |
|---|---|---|
| `Errors.TrackerError.Error` | errors.go:3-5 | The message is the error's own string: turning the message back into a `TrackerError` gives the same value. |
| `Errors.SentinelsDistinct` | errors.go:7-11 | The three sentinels have the messages "no tasks available", "invalid tracker response" and "this project doesn't exist", and no two are equal. |
| `Errors.Error.Message` | client.go:142-144 | An invalid-response error reads "invalid tracker response: " followed by `%d` of the status. The limit error reads "limit must be greater than 0" (client.go:113). An empty option reads "option must not be empty: " followed by the option's name (client.go:65). A sentinel's message is its own string. |
| `Errors.InvalidResponseMessageInjective` | client.go:142-144 | The invalid-response message determines its status code: equal messages mean equal codes. |
| `Errors.AppendError` | client.go:64-74 | `multierror.Append` gives a combined error whose last cause is the new one. From nil the result is exactly the one new cause. A combined error keeps its causes, in order, before the new one. Any other error becomes the first of two causes. |
| `Text.TrimLeft` | client.go:63 | The result is a suffix of the input, everything cut off is white space, and the result does not start with white space. |
| `Text.TrimRight` | client.go:63 | The result is a prefix of the input, everything cut off is white space, and the result does not end with white space. |
| `Text.TrimSpace` | client.go:63 | Neither end of the trimmed string is white space, and it is no longer than the input. |
| `Text.TrimSpaceIsMiddle` | client.go:63 | The trimmed string is a contiguous slice of the input, with only white space on either side. |
| `Text.TrimSpaceEmptyIffBlank` | client.go:63-64 | A string trims to empty exactly when every character of it is white space. |
| `Text.TrimSpaceIdempotent` | client.go:63 | Trimming an already trimmed string changes nothing. |
| `Text.DigitChar` | client.go:117 | A digit value below 10 becomes the character of that digit. |
| `Text.Decimal` | client.go:117 | `%d` of a natural number is a non-empty string of digits. It starts with '0' only for zero. |
| `Text.FormatInt` | client.go:143 | `%d` of a non-negative integer is its decimal form. A negative integer gets a minus sign before the decimal form of its magnitude. The first character is a digit exactly when the integer is not negative. |
| `Text.ParseDecimalInverse` | client.go:117 | Reading the decimal digits back gives the original number. |
| `Text.DecimalInjective` | client.go:117 | Different numbers have different decimal forms. |
| `Text.FormatIntInjective` | client.go:143 | Different integers are printed differently by `%d`, sign included. |
| `Client.NormalizeUrl` | client.go:55-61 | An empty URL becomes the default. Otherwise one trailing slash is removed exactly when there is one, and a URL without one is unchanged. |
| `Client.StripsOneSlash` | client.go:58-61 | Exactly one slash is stripped, for every `x`, the empty one included: `x/` becomes `x` and `x//` becomes `x/`. |
| `Client.ValidationCauses` | client.go:62-74 | There is one "option must not be empty" cause for each empty option and no other, ordered Project, ProjectVersion, Username. |
| `Client.ValidationError` | client.go:62-77 | Validation fails exactly when at least one trimmed option is empty. The error then combines all the causes. |
| `Client.AllMissingReported` | client.go:62-74 | With all three options empty, all three causes are reported, in order. Validation does not stop at the first failure. |
| `Client.ValidationFailsIffBlank` | client.go:63-75 | Construction fails exactly when one of the options, as the caller wrote it, is empty or white space only. |
| `Client.CheckOption` | client.go:64-66 | A set option leaves the error as it was. An empty option gives a combined error whose last cause names that option. From nil this is a one-cause list. A combined error keeps its causes and gets the new one appended. |
| `Client.CheckOptionExtends` | client.go:64-66 | One `if empty { Append }` step adds its own cause, and only that, at the end of the causes so far. |
| `Client.ValidationByAppends` | client.go:62-74 | The three successive `Append` steps produce exactly the combined error `ValidationError` describes. |
| `Client.TrackerConfig.constructor` | client.go:18-26 | A configuration literal holds the given fields and no HTTP client yet. |
| `Client.SetTrackerUrl` | client.go:55-61 | The URL becomes `NormalizeUrl` of the old URL. No other field changes. |
| `Client.TrimOptions` | client.go:63-71 | Project, ProjectVersion and Username become `TrimSpace` of their old values. No other field changes. |
| `Client.NewTrackerConfig` | client.go:51-81 | The caller's configuration gets the HTTP client with its timeout, the normalised URL and the trimmed options, whether or not validation fails. The password and timeout are left unchanged. The error is `ValidationError` of the trimmed options. On success a fresh client is returned that references the caller's own configuration; on failure nil. |
| `Client.TrackerClient.constructor` | client.go:78-80 | The client holds the caller's configuration object itself, not a copy. |
| `Client.RequestFor` | client.go:83-97 | The URL is `<TrackerUrl>/<Project>/<path>`. The headers are exactly content-type, user-agent `go-trackerclient <Project>/<ProjectVersion>`, ateam-tracker-project, -user and -version, with their values. Basic auth is (Username, Password), present exactly when the password is non-empty. |
| `Client.TrackerClient.NewRequest` | client.go:83-98 | Setting the headers one at a time yields exactly the request `RequestFor` describes. |
| `Client.AcquirePath` | client.go:115-118 | A limit of 1 selects `request`. A limit n > 1 selects `multi=<n>/request`. |
| `Client.AcquirePathInjective` | client.go:115-118 | Different limits select different paths, so the path tells the limit. |
| `Client.AcquireUrls` | client.go:111-127 | Acquiring one item targets `<url>/<project>/request`. Acquiring five targets `<url>/<project>/multi=5/request`. |
| `Client.AcquireOutcome` | client.go:131-149 | A transport error passes through. Status 204 or 404 gives `ErrNoTasksAvailable`, never `ErrNoSuchProject`. Any other status of 300 or more gives "invalid tracker response: <code>". Otherwise success holds exactly when the body decoded, and the items come back unchanged and in order. A body that did not decode gives the decoder's own error. An error comes with no items. |
| `Client.DoneOutcome` | client.go:195-206 | A transport error passes through. 404 gives `ErrNoSuchProject`. Any other status of 300 or more gives "invalid tracker response: <code>". Success holds exactly when the status is below 300. It never yields `ErrNoTasksAvailable`. |
| `Client.TrackerClient.AcquireRequest` | client.go:119-127 | A POST to `<TrackerUrl>/<Project>/` followed by the acquire path. It carries the body {Username, "2", ProjectVersion}, exactly the five headers with their values (content-type `application/json`, user-agent `go-trackerclient <Project>/<ProjectVersion>`, and the project, user and version headers), and Basic auth with (Username, Password) exactly when a password is set. |
| `Client.TrackerClient.RequestItemsContext` | client.go:111-150 | A zero limit gives the limit error with no request sent. Otherwise exactly one POST is sent: the acquire path, the body {Username, "2", ProjectVersion}, and the configured headers. Its reply is mapped by `AcquireOutcome`. An error comes with no items. |
| `Client.TrackerClient.RequestItemContext` | client.go:156-165 | It asks for one item. An error is passed on with `""`. An empty list gives `""` and no error. Otherwise it returns the first item. |
| `Client.TrackerClient.DoneRequest` | client.go:182-191 | A POST to `<TrackerUrl>/<Project>/done`. It carries Username, ProjectVersion, the items and the byte map, exactly the five headers with their values (content-type `application/json`, user-agent `go-trackerclient <Project>/<ProjectVersion>`, and the project, user and version headers), and Basic auth with (Username, Password) exactly when a password is set. |
| `Client.TrackerClient.ItemsDoneContext` | client.go:178-207 | An empty item list succeeds with no request sent. Otherwise exactly one POST to `done` is sent, carrying Username, ProjectVersion, the items and the byte map. Its reply is mapped by `DoneOutcome`. |
| `Client.TrackerClient.ItemDoneContext` | client.go:213-215 | It is `ItemsDoneContext` of the one-item list with a nil byte map. So it always sends exactly one request, the `done` request for that item, and its reply is mapped by `DoneOutcome`. |

## Left out

- The retrying HTTP transport (`retryablehttp`, `httpClient.Do`), its retries and connection handling: the round trip is the `send` parameter. Only the timeout handed to the HTTP client is recorded.
- `RetryLogger` and its `log.Printf` output: a logging side effect. The logger installed on the HTTP client is not recorded.
- `context.Context` cancellation: it reaches the model only as a transport failure in `send`. For the same reason `RequestItems`, `RequestItem`, `ItemsDone` and `ItemDone` are not modelled separately. They are the `Context` variants called with a background context.
- JSON encoding and decoding: payloads are records, and the decoded acquire body, or the decoder's error, is part of the reply. `json.Marshal` of these records cannot fail, so its error path is not modelled.
- `retryablehttp.NewRequest`'s URL-parsing error: URL syntax is checked by `net/url`, which is not part of this model.
- `defer res.Body.Close()`: resource plumbing.
- Go's header-key canonicalisation and the base64 `Authorization` header: headers are a map from lower-case name to value, and Basic authentication is the (user, password) pair.
- Strings are sequences of Unicode code points: invalid UTF-8 bytes, which `strings.TrimSpace` leaves in place, are not modelled.
- A nil slice and an empty slice are both the empty sequence.
- Errors built by `fmt.Errorf` are compared by their arguments. Go compares two such errors by pointer, so equal messages from two calls are not `==` in Go.
- Errors.Error.Message: undefined for a combined error, because go-multierror's message layout is not part of this model. The combined error is the ordered list of its causes.
- Errors.AppendError: does not flatten an appended error that is itself combined, as go-multierror does. The client only appends single causes.
- A nil `*TrackerConfig` passed to `NewTrackerConfig` makes the Go code panic at its first field write (client.go:52). In the model the configuration is a non-null object, so this case cannot arise.

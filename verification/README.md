# On-demand chat client: response handling

A model of the command-line client in `main.go`, which creates a chat session
with a conversational-agent HTTP API, submits one query in that session and
prints the answer. The model covers the decisions the client makes about the
replies it gets:

- **Session step** (`createChatSession`): the session id is the decoded
  `data.id` of an HTTP 201 reply and the empty string otherwise.
- **Gating** (`main`): an empty or placeholder API key stops the program
  before any request; the query step runs only with a non-empty session id.
- **Response-mode dispatch** (`submitQuery`): `"sync"` and `"stream"` are the
  only modes that produce anything.
- **Sync mode**: on HTTP 200 the caller's context metadata is written into
  the `data` object of the decoded reply, if there is one; any other status
  becomes an error report.
- **Stream mode**: a loop over the reply's lines. A `data:` line carries a
  payload, trimmed with Go's `strings.TrimSpace`. A `[DONE]` payload ends the
  loop. Payloads the decoder reports an error for are skipped. A `fulfillment` event
  appends its `answer` and overwrites the session and message ids. A
  `metricsLog` event overwrites the metrics. The result is a `completed`
  response, unless the line reader ended on a read error.

The stream loop is `Stream.ConsumeStream`, a method with the source's
`continue` and `break`. It is proved equal to the recursive fold
`Stream.Fold`. That fold is then proved equal to an independent reference
description in `StreamSpec`: the events before the first `[DONE]`, the
in-order concatenation of their answers, and, for each id and for the
metrics, the last event that sets it.

JSON is abstract. `Json.Value` holds decoded documents. The decoder is a
parameter `parse: Json.Parser`, which gives back a `Json.Decoding`: the map
`json.Unmarshal` filled in (`None` for a nil map) and whether it returned an
error. The three places that decode use these differently, as the code does.
Stream mode skips a payload exactly when the decoder reports an error; a nil
map without an error (the payload `null`) is an event with no keys. Sync mode
and the session step discard the error and use whatever was filled in, so a
document with an out-of-range number is skipped by the stream but printed by
sync mode (`Client.DecoderErrorDivergence`).

Stream mode never reads the HTTP status, as the code is written. An error
status with a line-oriented body is folded like a success
(`Client.StreamIgnoresStatus`).

## Model

| member | source | states |
|---|---|---|
| Text.TrimLeft | main.go:197 | the result is a suffix of the input; every character dropped is a Go `unicode.IsSpace` space; the result does not start with one |
| Text.TrimRight | main.go:197 | the result is a prefix of the input; every character dropped is a space; the result does not end with one |
| Text.TrimSpace | main.go:197 | the result is no longer than the input and neither starts nor ends with a space |
| Text.TrimSpaceCutsOnlySpaces | main.go:197 | the result is an infix of the input, with only spaces cut on either side |
| Text.TrimSpacePadded | main.go:196-197 | trimming any spaces around an unpadded payload gives back exactly that payload |
| Json.StringField | main.go:209-216 | the `.(string)` assertion succeeds exactly when the key is present with a string value, and then yields that string |
| Json.ObjectField | main.go:221 | the `.(map[string]interface{})` assertion succeeds exactly when the key holds an object, and then yields it |
| Json.MetadataValue | main.go:62-65 | the metadata becomes an array with one `{"key", "value"}` object per field, in order |
| Stream.Payload | main.go:196-197 | the payload of a `data:` line starts and ends with a non-space character |
| Stream.Classify | main.go:195-206 | a line is non-data exactly when it lacks the `data:` prefix at column 0; it is `[DONE]` exactly when the trimmed payload is `[DONE]`; it is malformed exactly when the decoder reports an error for the payload; otherwise it is the map the decoder filled in, a nil map read as an empty one |
| Stream.Step | main.go:208-224 | an event of another type leaves the accumulator unchanged; `fulfillment` never touches the metrics; `metricsLog` touches only the metrics; the answer only grows |
| Stream.Fold | main.go:192-226 | folding lines only extends the answer, never rewrites it |
| Stream.StreamOutcome | main.go:228-243 | no result exactly when the reader reported an error; otherwise the fixed success message, status `completed`, and the caller's context metadata unchanged |
| Stream.ConsumeStream | main.go:186-243 | the loop, with its `continue` on a payload the decoder reports an error for and `break` on `[DONE]`, yields exactly `StreamOutcome` of its lines |
| StreamSpec.UntilDone | main.go:195-201 | the lines the loop processes: a prefix with no `[DONE]` line, followed in the input by a `[DONE]` line unless it is the whole input |
| StreamSpec.LastIsLastSetter | main.go:212-224 | `Last` yields a value that some event sets and no later event sets; it yields nothing only when no event sets one |
| StreamSpec.LastCons | main.go:212-224 | an earlier event's value counts only when no later event sets one (last write wins) |
| StreamSpec.SummaryCons | main.go:208-224 | one loop step followed by the reference summary equals the reference summary of the longer event list |
| StreamSpec.FoldIsSummary | main.go:192-226 | the fold equals the reference summary of the events decoded before the first `[DONE]` |
| StreamSpec.StreamResultFields | main.go:188-243 | without a read error, the answer is the in-order concatenation of string `answer`s of `fulfillment` events before `[DONE]`. Each id comes from the last `fulfillment` event that carries it as a string, or is empty if none does. The metrics are the last object-valued `publicMetrics` of a `metricsLog` event, or absent |
| StreamSpec.DoneEndsStream | main.go:199-201 | a `[DONE]` line and every line after it have no effect on the result |
| StreamSpec.InertLineIgnored | main.go:195-224 | inserting a line without the `data:` prefix, with a payload the decoder reports an error for or with an event of another type anywhere changes nothing, so such a line never stops later lines from counting |
| StreamSpec.PayloadAfterSpace | main.go:195-197 | `data: ` followed by an unpadded payload carries exactly that payload |
| StreamSpec.StreamExample | main.go:192-243 | chunks "He" (with ids S1, M1) and "llo", a metrics event `{"tokens": 5}` and `[DONE]` give answer "Hello", ids S1 and M1 and those metrics |
| Sync.InjectMetadata | main.go:173-175 | when `data` is an object, only its `contextMetadata` key is set to the metadata; every other key at either level is unchanged; otherwise the document is unchanged |
| Sync.InjectMetadataIdempotent | main.go:173-175 | injecting the same metadata twice equals injecting it once |
| Sync.SyncResponse | main.go:166-182 | an error report with the status and raw body exactly when the status is not 200; on 200, a document exactly when the decoder fills one in, whether or not it reports an error; when `data` is an object the document is exactly `InjectMetadata` of the decoded one, otherwise it is the decoded one unchanged |
| Sync.SyncExample | main.go:168-181 | `{"data": {"answer": "hi"}}` keeps `answer` "hi" and gains the metadata; status 500 gives the error report |
| Client.DataId | main.go:109-121 | the id is the string `data.id` of the decoded document whenever there is one; a non-empty id always is that string |
| Client.SessionId | main.go:100-125 | a non-empty session id only on HTTP 201; on 201 it is the decoded `data.id` |
| Client.SubmitQuery | main.go:157-248 | a transport failure is reported before the mode is looked at; a mode other than `sync` or `stream` produces nothing; sync and stream produce their modes' outcomes |
| Client.RunClient | main.go:52-74 | the program stops before any request exactly when the API key is empty or the placeholder; otherwise the query runs exactly when the session id is non-empty, and only after a 201 reply |
| Client.StreamIgnoresStatus | main.go:183-243 | stream mode's result depends on the lines and the read-error flag, not on the status code |
| Client.DecoderErrorDivergence | main.go:203-206 | a payload the decoder fills in but reports an error for is skipped by stream mode, printed by sync mode and read for an id by the session step |
| Client.ShippedConfiguration | main.go:53-56 | with the shipped placeholder key every run stops before any request; the shipped empty response mode makes the query step produce nothing |
| Client.SessionCreatedExample | main.go:108-121 | a 201 reply with `data.id` "S1" yields session "S1", and the query step runs |
| Client.SessionRejectedExample | main.go:67-68 | a 400 reply yields no session, and the query step is skipped |

## Left out

- Request construction, headers, URLs and `client.Do` (main.go:76-106, 129-162) are network I/O. Each step is given the reply its request received: a transport failure, or a status and a body.
- `encoding/json` decoding is an abstract parameter. Two decoder details are not modelled. Go matches struct fields case-insensitively, so a `"ID"` key also fills the session id. Duplicate keys are also not modelled. Re-encoding with `json.MarshalIndent` and the JSON round trip of the printed document are foreign library behaviour.
- Client.DataId: recognises only the exact keys `data` and `id`, not the case-insensitive matches Go's struct decoder also accepts.
- `bufio.Scanner` line splitting, its carriage-return stripping and its 64 KiB token limit are not modelled. Stream mode gets the lines the scanner yields, plus a flag for whether `scanner.Err()` reports an error when the loop ends. Whether a read error is already recorded when the loop breaks at `[DONE]` depends on buffering, and the flag stands for that.
- Strings are sequences of Unicode characters, not UTF-8 bytes. Invalid UTF-8, which Go's `TrimSpace` never treats as a space, is not represented.
- Sync mode updates the nested `data` map in place, through an alias held by the outer map. The model rebuilds the outer document as a value instead, so the aliasing is not captured.
- The session reply's `contextMetadata` list (main.go:114-119) is only printed, and printing is not modelled.
- Generation of the external user id with `uuid.NewString()` (main.go:57-60) is nondeterministic.
- `API_KEY` (main.go:17) and `RESPONSE_MODE` (main.go:24) are the parameters `apiKey` and `mode` of `Client.RunClient`, so that runs with other values can be stated. The shipped values are the placeholder and the empty string (`Client.ShippedConfiguration`).
- `EXTERNAL_USER_ID` (main.go:22) and its placeholder test and replacement (main.go:57-60) only feed the request body.
- The constants `QUERY`, `AGENT_IDS`, `ENDPOINT_ID`, `REASONING_MODE`, `FULFILLMENT_PROMPT`, `STOP_SEQUENCES`, `TEMPERATURE`, `TOP_P`, `MAX_TOKENS` and the two penalties (main.go:23, 25-35) are only echoed in the request body, and the floating-point temperature is never computed with.
- Console output (`fmt.Print*`) and `os.Exit` are not modelled. `Client.RunClient` returns the run's outcome instead, and `MissingApiKey` stands for exit status 1.
- Numbers are kept as their literal text. The client never computes with them.

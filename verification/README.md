# rest-data-archiver, modelled in Dafny

rest-data-archiver copies data from a REST API into Amazon S3, one *archive
set* at a time. A run loads a JSON configuration, builds the one source and the
one destination it names, and visits every set in order. For each set it:

- applies the set's own source and destination documents (`ForSet`);
- reads the source;
- prints a preview (dry run) or writes the response to S3.

A start-up failure (an unreadable configuration, or a source or destination that
cannot be built) stops the run after one alert. After that, a failure in one set
never stops the later sets. A missing set name, a failed `ForSet` or a failed
read adds a message; a failed S3 write does not (see below). When the run is
over, one summary alert lists all the messages. The destination reports every write as
a leveled event, and alert- and emergency-level events are mailed.

The model follows the Go packages file by file:

- `types.dfy` (module `Types`): the configuration records, `EventLogItem` and
  its `String`, and the `LogLevels` table.
- `restapi.dfy` (module `RestApi`): the REST source. It covers decoding with
  defaults, the Salesforce token swap, per-set path normalisation, the request
  (headers, user agent, authentication), the status ≥ 400 rule and `Read`.
- `s3.dfy` (module `Aws`): the S3 destination. It covers configuration
  validation in a fixed order, the per-set object prefix, the object key and
  `Write`, which emits exactly one event.
- `internal.dfy` (module `Internal`): `parseConfig`'s checks, the dry-run
  preview, the event-log consumer, the bounded drain, `RunSet` and
  `MaxSetNameLength`.
- `run.dfy` (module `Archiver`): `Run`.
- `wrappers.dfy`: `Option` and `Result`.

The adapters are classes whose fields the operations update in place. Each
method is proved against a pure function of the old state and the inputs:

| method | specification function |
|---|---|
| `ForSet` | `ApplySet` |
| `Read` | `ReadResult` |
| `Write` | `Written` |
| `RunSet` | `SetResult` |
| `Run` | `Startup` and `ExpectedReport` |

The properties are stated and proved about those functions.

Outside effects are parameters. JSON decoding is a function from bytes to a
decoded value or an error. The HTTP server, the token endpoint, the object
store, the clock and the channel length seen by the drain are oracle functions,
collected in `Archiver.Env`. The HTTP transport, the object store, the clock and
the channel length take the set's index, because each set meets them afresh. The
decoders and the token exchange are used the same way for every set and take no
index. Mailed alerts are the `alerts` output
of `Run`. In the model, each set's event-consumer alerts come before the closing
summary. Go does not fix that order (see "Left out").

Every object handed to the store is recorded in the destination's ghost
`uploads` log. `Run` returns that log, so "what was uploaded" is an observed
effect of the methods, not a label built beside them.

Go's `Source` and `Destination` interfaces are instantiated with the only two
adapters `Run` can build. So `Internal` imports `RestApi` and `Aws`, which
inverts the Go package dependency.

Two behaviours of the code are easy to misread, and the model keeps both:

- A failed S3 write is not a set failure. `RunSet` logs the `Write` error and
  returns nil, so `Run` adds no message and the write failure is not in the
  summary. It is mailed only by the event consumer, as
  `Alert: error saving to S3: …` (`Internal.SetResult`,
  `Archiver.WrittenSetAddsNoArchiveError`).
- A set whose `ForSet` fails is still read and written, using the per-set
  configuration the previous set left in place. For the first set that
  configuration is empty: the bare base URL and an empty object prefix
  (`Archiver.SourceSetAfter`, `Archiver.FailedSourceForSetKeepsPreviousPath`).

## Model

| member | source | states |
|---|---|---|
| Types.LevelName | internal/types.go:44-56 | a priority has a non-empty name exactly when it is one of the eight syslog levels 0..7; any other priority reads as the empty string |
| Types.LogLevelsNamesEveryPriority | internal/types.go:47-56 | the table's keys are exactly the priorities Emerg..Debug, and no two priorities share a name |
| Types.EventLogItem.String | internal/types.go:43-45 | the text is the level name, then ": ", then the message (prefix, separator position, suffix and length); alert, emergency and info items start with "Alert: ", "Emerg: ", "Info: "; an unknown level gives ": " + message |
| RestApi.WithDefaults | restapi/restapi.go:153-166 | an empty method becomes GET, a batch size ≤ 0 becomes 10, a delay ≤ 0 becomes 3, an empty user agent becomes "rest-data-archiver"; set values and all other fields are kept |
| RestApi.WithDefaultsIdempotent | restapi/restapi.go:153-166 | applying the defaults twice equals applying them once |
| RestApi.NormalizePath | restapi/restapi.go:82-84 | the result starts with "/"; a path already starting with "/" is kept verbatim, otherwise exactly one "/" is prepended |
| RestApi.NormalizePathIdempotent | restapi/restapi.go:82-84 | normalising twice equals normalising once |
| RestApi.ApplySet | restapi/restapi.go:71-89 | success iff the document decodes with a non-empty path, and then the path is normalised; a decode error is wrapped and still contained; every error mentions the set name |
| RestApi.ApplySetTwice | restapi/restapi.go:82-86 | applying a set with the path a previous apply stored gives that same configuration back |
| RestApi.Authorize | restapi/restapi.go:185-190 | basic sets basic credentials from username/password; bearer and SalesforceOauth set Authorization to "Bearer " + password; any other type leaves the request unchanged; method, URL and body are never touched |
| RestApi.SalesforceAuthIsBearer | restapi/restapi.go:188-189 | a SalesforceOauth request is authorised exactly as a bearer one |
| RestApi.Prepare | restapi/restapi.go:168-190 | the request keeps method, URL and body; every caller header other than User-Agent and Authorization is kept with its value, and no header is added except those two; User-Agent is always the configured one; basic auth sets the credentials and no Authorization header; bearer and SalesforceOauth set Authorization to "Bearer " + password; any other type adds nothing beyond the user agent |
| RestApi.Outcome | restapi/restapi.go:192-208 | a response with status ≥ 400 returns its body and an error equal to the status line; below 400 the body and no error; a send or body-read failure returns no bytes and an error containing the cause |
| RestApi.ReadRequest | restapi/restapi.go:92-93 | `Read` sends the configured method to base URL + set path with an empty body, a "Content-Type: application/json" header, the configured User-Agent and no other header but Authorization; basic auth sets the credentials, bearer and SalesforceOauth set "Bearer " + password, any other type adds no authentication |
| RestApi.ReadResult | restapi/restapi.go:91-98 | success iff the HTTP exchange had no error, returning the body; otherwise the error carries the prefix "restAPI Read failed with http error: "; status ≥ 400 gives exactly that prefix plus the status line |
| RestApi.TokenRequestFor | restapi/restapi.go:109-118 | the token request is a POST to the base URL with exactly the five password-grant form fields: grant_type "password", and username, password, client_id and client_secret taken from the configuration |
| RestApi.TrimSuffix | restapi/restapi.go:148 | one copy of the suffix is removed when the string ends with it, and nothing otherwise |
| RestApi.Constructed | restapi/restapi.go:45-67 | success requires a decodable config; a decode failure gives "json.Unmarshal error in adapter config:\n", the raw config, "\nerror: " and the decode error; defaults are applied before the token exchange; a non-Salesforce source keeps the defaulted settings; Salesforce replaces the password by the access token and the base URL by the instance URL less one trailing "/", keeping client id and secret; a failed exchange is reported as "error getting Oauth token: " + its error |
| RestApi.RestApi.constructor | restapi/restapi.go:46-51 | a new adapter holds the decoded settings and no per-set path |
| RestApi.RestApi.SetDefaults | restapi/restapi.go:153-166 | the fields become `WithDefaults` of their old values and the per-set path is untouched |
| RestApi.RestApi.ForSet | restapi/restapi.go:71-89 | the returned error is `ApplySet`'s; the stored per-set configuration is fully replaced on success and unchanged on error; no other field changes |
| RestApi.RestApi.HttpRequest | restapi/restapi.go:168-209 | copying the caller's headers in a loop, then the user agent and the authentication, yields `Outcome` of the transport's answer to `Prepare`'s request |
| RestApi.RestApi.Read | restapi/restapi.go:91-98 | the result is `ReadResult` of the transport's answer to `ReadRequest` for the current settings and set |
| RestApi.RestApi.GetSalesforceOauthToken | restapi/restapi.go:108-151 | on success returns the access token and sets the base URL to the trimmed instance URL, nothing else; on failure returns the error and changes nothing |
| RestApi.NewRestApiSource | restapi/restapi.go:45-67 | fails exactly when `Constructed` fails, with its error; otherwise a fresh adapter holding `Constructed`'s settings and no per-set path |
| Aws.ReadConfig | aws/s3.go:52-74 | success iff bucket, region, access key and secret key are all non-empty, returning the decoded config unchanged; the first empty field in that order picks the error; a decode error is wrapped and contained |
| Aws.Validated | aws/s3.go:41-45 | validation errors are prefixed "error reading S3 destination config: "; success carries the decoded config |
| Aws.ApplySet | aws/s3.go:76-91 | a decode error is returned as it is; a non-empty prefix is kept; an empty one becomes setName + "/data"; a successful result never has an empty prefix |
| Aws.Decimal | aws/s3.go:94 | the timestamp's `%v` text is non-empty, all digits, has no leading zero except for 0 itself, and reads back as the timestamp (`DecimalValue`) |
| Aws.ObjectKey | aws/s3.go:94 | the object key starts with the prefix and continues with at least one digit and nothing else; those digits read back as the timestamp and start with "0" only when the timestamp is 0, so they are its unpadded `%v` text |
| Aws.UploadOf | aws/s3.go:94-119 | the upload carries the adapter's AWS settings, its bucket, the key `ObjectKey(prefix, now)` and the data unchanged |
| Aws.SaveError | aws/s3.go:109-125 | no error iff the upload was saved; a session failure is prefixed "error initializing S3: "; an upload failure names bucket/key and carries the uploader's error |
| Aws.Written | aws/s3.go:93-107 | exactly one event per write: on failure a LOG_ALERT "error saving to S3: " + the returned error; on success a LOG_INFO "saved to <key> on bucket <bucket>" and no error |
| Aws.S3Adapter.constructor | aws/s3.go:41-50 | a new adapter keeps the given destination section and the validated config, with no per-set prefix yet and nothing uploaded |
| Aws.S3Adapter.ForSet | aws/s3.go:76-91 | the returned error is `ApplySet`'s; the per-set configuration is fully replaced on success and unchanged on error; the other fields and the upload log never change |
| Aws.S3Adapter.Write | aws/s3.go:93-107 | exactly one upload, `UploadOf` the current configuration, prefix, data and time, is appended to the upload log; the returned error and the emitted events are exactly `Written` of the store's answer; no other field changes |
| Aws.NewS3Destination | aws/s3.go:41-50 | fails exactly when `Validated` fails, with its error; otherwise a fresh adapter storing the given destination section, with an empty upload log |
| Internal.ParseConfig | internal/internal.go:49-72 | success iff the document decoded and both the source and the destination type are set, returning it unchanged; a missing source type is reported before a missing destination type |
| Internal.MaxSetNameLength | internal/internal.go:138-146 | 0 for no sets; otherwise at least every set name's length and equal to one of them |
| Internal.Preview | internal/internal.go:118-124 | a response over 500 bytes shows its first 500 bytes then "...(truncated)"; a shorter one is shown whole with a newline; the header is always "response:\n" |
| Internal.Rendered | internal/internal.go:109-111 | every event is logged, in order, as its `String` |
| Internal.Escalations | internal/internal.go:109-116 | one alert per alert- or emergency-level event (`CountEscalating`), so none iff there is no such event |
| Internal.CountEscalating | internal/internal.go:112 | the count equals the number of positions holding an alert- or emergency-level event, so it is at most the number of events |
| Internal.EscalationsAreEscalated | internal/internal.go:112-114 | every alert sent is the text of an alert- or emergency-level event |
| Internal.EscalationsComplete | internal/internal.go:112-114 | every alert- or emergency-level event is mailed, as its `String`, at the position given by the escalating events before it |
| Internal.ProcessEventLog | internal/internal.go:109-116 | the consumer loop logs `Rendered` and mails `Escalations` of the events |
| Internal.SaveAlertRendering | internal/internal.go:113-114 | the mail sent for a failed save reads "Alert: error saving to S3: " + the error |
| Internal.Drain | internal/internal.go:98-104 | the wait takes at most 1000 polls and stops at the first empty channel reading |
| Internal.SetResult | internal/internal.go:75-107 | a read error is the set's error and nothing is uploaded; a dry run previews and uploads nothing; otherwise exactly one upload of the read bytes, `UploadOf` the destination settings and time, one event is logged, the set has no error even if the write failed, and an alert is mailed iff it failed |
| Internal.RunSet | internal/internal.go:75-107 | the outcome is `SetResult` of the adapters' current configuration, and the destination's upload log grows by exactly the outcome's uploads (none on a read failure or a dry run, one otherwise) |
| Archiver.Startup | run.go:22-60 | a load failure, a source type other than "RestAPI" ("unrecognized source type") or a failed construction, then a destination type other than "S3" or a failed S3 validation, each stop the run with that one message, in that order; conversely, a loaded config with both types right, a successful construction and a successful validation always starts |
| Archiver.SourceSetAfter | run.go:76-81 | the source's per-set configuration after some sets; its path is empty iff no source `ForSet` among them succeeded |
| Archiver.DestinationSetAfter | run.go:83-88 | the destination's per-set configuration after some sets; its prefix is empty iff no destination `ForSet` among them succeeded |
| Archiver.SourcePathRootedOrUnset | run.go:76-81 | the path a set is read from is empty (no `ForSet` has succeeded yet) or starts with "/" |
| Archiver.DestinationPrefixChosen | run.go:83-88 | the prefix a set is written under is empty or is the one a successful `ForSet` of some set produced |
| Archiver.SetMessage | run.go:78-91 | each per-set failure message starts with its fixed text and contains both the set name in double quotes and the underlying error |
| Archiver.SetMessages | run.go:67-94 | one message per failure, so at most four and none iff nothing failed; the missing-name notice, the source `ForSet` message, the destination `ForSet` message and the `RunSet` message each sit at the position their order in the loop gives them |
| Archiver.SetMessagesNameTheSet | run.go:67-94 | every message except the missing-name notice names the set |
| Archiver.ExpectedReport | run.go:66-95 | the report for set i carries that set's name; its outcome is `RunSet` run with the configuration in effect after both `ForSet` calls, whether or not they failed |
| Archiver.WrittenSetAddsNoArchiveError | run.go:90-94 | a set that uploaded something has no archive-failure message, whatever the write did |
| Archiver.ExpectedReports | run.go:66-95 | there is one report per set, and report i is the report of set i |
| Archiver.FailedSourceForSetKeepsPreviousPath | run.go:76-90 | after a failed source `ForSet`, the set is read with the path the previous sets left |
| Archiver.Errors | run.go:63-97 | the run's error list is empty iff no set added a message |
| Archiver.ConsumerAlerts | internal/internal.go:109-116 | the consumer sent no alert during the run iff no set's consumer sent one |
| Archiver.Uploads | run.go:62-95 | the run uploaded nothing iff no set uploaded anything |
| Archiver.DryRunUploadsNothing | internal/internal.go:81-86 | a dry run uploads nothing, whatever the sets and the source answer |
| Archiver.ErrorsCollectEveryMessage | run.go:63-94 | every message any set added is in the run's error list |
| Archiver.Join | run.go:98 | joining no parts gives "" and one part gives that part; otherwise the text starts with the first part and ends with the last |
| Archiver.JoinAppend | run.go:98 | joining one more part appends the separator and then that part, so the joined text is the parts in order with the separator between neighbours and nothing else |
| Archiver.JoinMentionsEveryPart | run.go:98 | each joined message occurs in the joined text |
| Archiver.Summary | run.go:97-99 | one summary alert iff the error list is non-empty; it is "Sync error(s):\n" followed by exactly the messages joined with "\n" |
| Archiver.SummaryMentionsEveryError | run.go:97-99 | the summary alert contains every collected message |
| Archiver.ProcessSet | run.go:66-95 | one loop iteration applies both `ForSet`s and runs the set, producing `ExpectedReport`, leaving the adapters configured as the sets so far dictate and appending exactly the report's uploads to the destination's log |
| Archiver.ProcessSets | run.go:62-99 | the loop visits every set in order without stopping and produces `ExpectedReports`; the alerts are the consumer's alerts followed by `Summary` of the collected errors; the destination's upload log is exactly `Uploads` of the reports |
| Archiver.Run | run.go:17-103 | the run always returns nil; a start-up failure sends exactly that one alert, processes no set and uploads nothing; otherwise every set gets its expected report in order, the alerts are the consumer's alerts then the summary, and the uploads are exactly those of the reports |

## Left out

- Reading the configuration file, `CONFIG_PATH` and the default path are file and environment I/O. `Run` takes the decoded document or the decode error.
- `json.Unmarshal` is a library call. Every decode is a function parameter returning a value or an error.
- `http.Client`, request construction failures, form encoding and the `Content-Type`/`Accept`/`Content-Length` headers of the token request are network I/O. They appear only as the `transport` and `exchange` oracles. Header names are not canonicalised. The token exchange's status code is not checked by the code, and the oracle does not model it either.
- The AWS session and uploader in `saveObject`/`createS3Uploader` are SDK calls. They appear only as the `store` oracle's three outcomes.
- `time.Now` is a parameter: the timestamp, in nanoseconds.
- The event-log goroutine and the 50-slot channel are collapsed into a synchronous pass over the events `Write` returns. The 1 ms sleep is not modelled. Closing the channel loses nothing, but `RunSet` never waits for the consumer goroutine. In Go its log lines and alert can therefore come after later sets or after the summary, or be cut off when the process exits. The model delivers every alert, and puts each set's alerts before the next set and before the summary.
- Internal.Drain: only the channel length is modelled, through the `backlog` oracle, not the goroutine that empties it.
- `alert.SendEmail` and the `Alert` configuration section are not part of this model. An alert is the message text it would send. On a load failure Go passes a zero-value alert configuration; that is not represented.
- Log lines, the `%-*s` name padding and the start and end timestamps are cosmetic output. `MaxSetNameLength` is still computed, and its result is unused as in Go, apart from padding.
- Internal.MaxSetNameLength counts characters, not UTF-8 bytes as Go's `len` does.
- Types.AsText renders each byte as one character. That is what `%s` prints for ASCII, but not for multi-byte UTF-8.
- `EmptySource`/`EmptyDestination` are unused types whose `ForSet` does not fit the interfaces.
- The unexported `destinationConfig` field of the REST adapter is never set or read.
- The Source and Destination interfaces are not separate types. The model instantiates them with the two concrete adapters `Run` can build.
- The command-line and Lambda entry points only forward to `Run`.

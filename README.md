# docker_api_test — a verified model of the client and the session driver

The program drives a Docker Engine through its HTTP API. It looks up the
image `ubuntu:latest`, pulls it when there is no local copy, creates a
container from it, starts the container, and polls until the engine reports
it running. The model has three modules:

- `Replies` (replies.dfy): what the client gets back from the engine once an
  exchange is over. A reply is a transport failure, or a status code with a
  body. The body is given as the outcome of each JSON decoding the client can
  apply to it. Go's `(value, error)` pairs are `Answer(value, err)`, because
  main reads the value even beside an error.
- `Client` (client.dfy): apiclient.go. It covers transport selection, the base
  URL and each endpoint's status dispatch. The pull loop and the warnings loop
  are methods, each proved equal to a pure specification function.
- `Session` (session.dfy): `main` in main.go, with its start-up corrected as
  described under "## Findings". The engine is a script of replies, one per
  request. `RunSession` records every call it issues and every piece of text
  it writes. It is proved equal to `SessionSpec`, and the properties of a
  session are lemmas about `SessionSpec`. The start-up as written is modelled
  separately, by `StartAsWritten`.

main.go also declares its own copy of the client. The model takes the client
once, from apiclient.go, which has the fuller API (stop, remove, exec). From
main.go it takes only `main` and its constants.

## Model

| member | source | states |
|---|---|---|
| Client.TrimPrefix | main.go:306 | with the prefix present, prefix + result is the input; otherwise the input is returned unchanged |
| Client.NewAPIClient | apiclient.go:24-49 | a client exists iff some address is given; the transport is `unix` iff the socket path is non-empty (it wins over TCP); the address is the chosen one; without either address the error has the fixed message |
| Client.HttpServerUrl | apiclient.go:51-59 | `http://unix` for unix, `http://` + address for tcp, and the empty string exactly for any other transport |
| Client.UnixSocketWins | apiclient.go:28-33 | with a socket path the TCP address is irrelevant, and the client is (path, unix) |
| Client.ConnectedClientUrl | apiclient.go:24-59 | every client NewAPIClient builds has a non-empty base URL, fixed by which address was given |
| Client.ParseErrorMessage | apiclient.go:338-349 | the error is the engine's message iff the body's `message` decodes, and its text is that message; otherwise it is the decode error |
| Client.StartContainer | apiclient.go:193-208 | success iff the response status is 204; a transport failure is passed on; any other status gives the parsed message error |
| Client.StopContainer | apiclient.go:235-250 | success iff the response status is 204; a transport failure is passed on; any other status gives the parsed message error |
| Client.RemoveContainer | apiclient.go:252-269 | success iff the request failed outright or the status is 204; otherwise the parsed message error |
| Client.RemoveSwallowsTransportErrors | apiclient.go:235-269 | remove and stop agree on every HTTP response; on a failed request, stop reports it and remove does not |
| Client.StartErrorCarriesEngineMessage | apiclient.go:201-207 | a refused start whose error body decodes fails with exactly the engine's message text |
| Client.CheckIfContainerIsRunning | apiclient.go:210-233 | no error iff status 200 with a decodable state, and then the value is `State.Running`; every error comes with `false`; a transport failure gives the transport error; a 200 whose state does not decode gives that decode error; any other status gives the parsed message error |
| Client.CreateExec | apiclient.go:271-305 | no error iff status 201 with a decodable Id, and then the Id is returned; every error comes with `""`; other statuses give the parsed message error; a failed request gives the transport error; a 201 whose Id does not decode gives that decode error |
| Client.StartExec | apiclient.go:307-336 | no error iff status 200 with a readable body, and then the whole body is returned; every error comes with `""`; other statuses give the parsed message error; a failed request gives the transport error; a 200 whose body cannot be read gives the read error |
| Client.FindImage | apiclient.go:61-106 | the image list iff status 200 and the list decodes; any other status gives the "Unexpected HTTP respose status" error; a failed request gives the transport error; a 200 whose list does not decode gives that decode error; every error comes with no images |
| Client.Consumed | apiclient.go:127-142 | the loop reads exactly the leading statuses: all entries before the returned index are statuses and the entry at it is not |
| Client.StatusLines | apiclient.go:127-130 | one printed line per decoded status, in order |
| Client.PullImage | apiclient.go:108-145 | the returned digest and error, and the printed lines, are exactly those of the pure specification `PullAnswer` / `PullPrinted` |
| Client.LastDigestIsLastMatch | apiclient.go:127-133 | the digest is the text after `Digest: sha256:` of the last status that carries that prefix |
| Client.LastDigestWithoutMatch | apiclient.go:109-133 | with no status carrying the prefix the digest stays `""` |
| Client.CleanPullDigest | apiclient.go:127-144 | for any response whose stream reaches EOF after some statuses, the pull gives the last announced digest and no error and prints exactly those statuses, whatever follows the EOF |
| Client.PullStopsAtDecodeError | apiclient.go:134-138 | for any response whose stream hits a decode error after some statuses, the digest collected so far comes back with that error, and later entries are neither read nor printed |
| Client.ConsumedStops | apiclient.go:127-142 | the loop stops at the first entry that is not a status |
| Client.WarningLines | apiclient.go:184-188 | one `Warning: ` line per warning, in order |
| Client.CreatedAnswer | apiclient.go:147-191 | no error iff the request succeeded and the body decodes, and then the container Id is returned; a failed request gives the transport error; a body that does not decode gives that decode error; the status code plays no part |
| Client.CreateContainer | apiclient.go:147-191 | the returned Id and error, and the printed warnings, are exactly those of `CreatedAnswer` / `CreatedPrinted` |
| Session.ImageReference | main.go:20-23 | the image reference is `ubuntu:latest` |
| Session.StartAsWritten | main.go:280-286 | as written: usage iff `-h` or no argument; otherwise main goes on, with a nil client exactly when neither address is given |
| Session.DebugFlagAloneGivesNilClient | main.go:286-291 | `-d` alone passes the usage check with a nil client |
| Session.Start | main.go:280-286 | corrected start-up: usage iff `-h` or no argument; refusal with the configuration error iff no address; a launched client has a non-empty URL |
| Session.FirstDecisive | main.go:328-343 | every answer before the returned index is "not running, no error", and the answer at it is not |
| Session.RunSession | main.go:277-344 | the calls, the text written and the way main ends are exactly those of `SessionSpec`, which uses the corrected start-up `Start`; the lemmas below prove its promises, among them that the container started and polled is the one create returned |
| Session.Prepare | main.go:280-326 | usage, configuration error (corrected start-up), lookup, pull or trim, create and start, as `PreludeSpec` |
| Session.Resolve | main.go:291-309 | lookup; pull only without a match; the trimmed or pulled digest is printed, as `ResolveSpec` |
| Session.CreateAndStart | main.go:311-326 | create, then start only after a successful create, each error ending the session, as `LaunchSpec`; `LaunchUsesCreatedId` proves that the Id started and polled is the one create returned, printed as `Created container <id>` |
| Session.PollUntilRunning | main.go:328-343 | one dot and one state query per round; the loop ends as `AwaitRunning` says, with the newline or the error line |
| Session.StopsAtFirstRunning | main.go:328-335 | with `running` first at index i, the loop sends i + 1 queries and the container is running |
| Session.AwaitRunningEnds | main.go:328-343 | every way the loop ends: running after a clean answer, aborted with the error of the last answer, or still waiting when no answer was decisive |
| Session.PrintedLinesHaveNoDot | apiclient.go:127-188 | the pull's status lines and the warnings are whole lines, never a bare dot |
| Session.SessionPolls | main.go:328-343 | the session's state queries are the loop's, and only after a successful start |
| Session.OneDotPerQuery | main.go:328-330 | the session writes exactly as many dots as it sends state queries |
| Session.PhasesInOrder | main.go:291-330 | lookup first, then pull, create, start and queries, each phase strictly after the one before |
| Session.NeverTearsDown | main.go:277-344 | no path stops or removes the container |
| Session.PollsOnlyAfterStart | main.go:319-328 | the poll loop is reached only when the start succeeded |
| Session.FailedStartIsFinal | main.go:311-322 | after a failed start the session issues no state query and no clean-up call |
| Session.EarlierCallsSucceed | main.go:291-340 | every call but the last got an answer without error |
| Session.AbortsAtFailingCall | main.go:291-340 | a session that made calls is aborted with an error exactly when its last call's reply carries that error; every aborted session writes its error line last |
| Session.StartsAndPollsCreatedContainer | main.go:311-330 | every start call and every state query of a session carries the Id create returned, and a started container's `Created container <id>` line is in the output |
| Session.NoCallWithoutClient | main.go:280-291 | the session makes no engine call iff it did not launch, and then it showed usage or the configuration error |
| Session.PullOnlyWithoutMatch | main.go:299-307 | the pull is issued iff the lookup succeeded and found no image |
| Session.UsageIssuesNoCall | main.go:280-284 | with `-h` or no argument the session writes the usage line, makes no call and ends |
| Session.ImageDigestRule | main.go:299-307 | without a match the digest is the pulled one; with a match it is the first image's identifier with one `sha256:` removed, and later images are ignored |
| Session.ResolvedImageLine | main.go:299-311 | once the session has resolved the image, its digest line is printed and the container is created from the reference |
| Session.LocalDigest | main.go:306 | a local image `sha256:1234` has digest `1234` |
| Session.LocalMatchScenario | main.go:291-309 | with a local image `sha256:1234` the session prints `Image: 1234` and pulls nothing |
| Session.ThirdPollRuns | main.go:328-343 | "not yet", "not yet", "running": three queries, three dots, and the container is running |

## Left out

- HTTP, `net.Dial`, URL building and JSON encoding and decoding are foreign library calls. Each decoding's outcome is an input, carried in `Body`.
- The request path, the filter JSON and the request payloads are not modelled. Only remove's result depends on them, as the next line says.
- Client.RemoveContainer: the error of `http.NewRequest` is discarded (apiclient.go:255). A URL that does not parse, such as a TCP address `localhost:abc` or a container id with a control character, leaves the request nil, and `Do` then panics. The model's remove can only succeed or return an error, so it does not capture this panic. Stop and start get the same failure back from `Post` as an ordinary transport error, which the model covers.
- `spew.Dump` and the `-d` flag's debug output are diagnostic output only.
- Flag parsing is not modelled. The parsed flags and the argument count are an input.
- `flag.PrintDefaults` writes to standard error and is not recorded. The model records only the `Usage:` line.
- `os.Exit(-1)` is modelled as a terminal `Aborted` outcome. `time.Sleep` is a no-op.
- The poll loop in main has no bound. The script of answers is finite, and running out of answers ends the model's session as `StillWaiting`.
- Client.PullImage: the end of the given stream counts as EOF, which is what the JSON decoder reports at the end of a body.
- Client.PullImage: the loop decodes every document into the same struct (apiclient.go:119-128). A document without a `status` field, such as the engine's in-stream `{"error": ...}` report, leaves the previous status in place. Each stream entry of the model is the status after one decoding, so such a document is a repeat of the previous status. The pull then prints that status again and does not fail, as in the source. Errors the engine reports inside the stream are not detected.
- Client.CreatedAnswer: the response status is not consulted, as in the source. A refused create that still decodes succeeds.
- Client.FindImage: `json.Marshal` of the fixed filter cannot fail and is not modelled.
- The closing of response bodies is not modelled.
- test.py, which inspects the container from outside, is not modelled.
- Descriptions of the program speak of monitoring the container after it starts and of tearing it down when start fails. main.go has neither. The model follows the code: `Session.NeverTearsDown` and `Session.FailedStartIsFinal` state that no clean-up call is made.

## Findings

| source | as written | input that shows it | evidently intended | confidence | as-written member | corrected member |
|---|---|---|---|---|---|---|
| main.go:286 | `NewAPIClient`'s error is discarded, so main goes on with a nil client when no address is given | the command line `-d` alone: one argument, no `-h`, no address | report the configuration error and exit, as every other error in main does | high, not executed | Session.DebugFlagAloneGivesNilClient | Session.Start |

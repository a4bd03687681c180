# opencc-api-go: request handling, modelled in Dafny

The service converts Chinese text between script variants behind two HTTP
endpoints. This project models how it handles a request; the conversion
library it calls is not modelled.

- **Scheme catalogue** (`schemes.dfy`). `SCHEMES` holds ten entries, and
  `ScanSchemes` is the `for`/`break` scan over them that both handlers run.
- **Status-capturing wrapper** (`response_writer.dfy`). `ResponseWriter` is a
  class with a `statusCode` field around the wrapped writer. The wrapped
  writer is the `Sink` class, which keeps the codes, header fields and bytes
  it is handed. Pure transition functions (`AfterWriteHeader`, `AfterWrite`,
  `AfterSetHeader`) specify the methods. `Replay` applies a whole sequence of
  calls, and lemmas about it say which status ends up recorded.
- **Form endpoint** (`legacy.dfy`). `Legacy.Handle` is the `handler`
  function written step by step. It is proved equal to the pure
  `LegacyExchange`, and lemmas state each path's outcome.
- **JSON endpoint** (`api.dfy`). `Api.Handle` is `apiHandler`, proved equal
  to `ApiExchange`, with one lemma per failure category and one for success.
- **Routing** (`routing.dfy`). `Route` models the two `http.HandleFunc`
  registrations, and `Serve` dispatches on the path.
- **Go's string functions** (`go_strings.dfy`): `strings.Split`,
  `strings.TrimPrefix` and `strings.TrimSpace` (with `unicode.IsSpace` as the
  Unicode White_Space set), and `len` as a UTF-8 byte count.

Outside capabilities are parameters. `OpenCC` holds `occ.New` and
`cc.Convert` as function values over an arbitrary converter type `C`.
`Json` holds body decoding and response encoding. Each library error is
carried as its `%v` text. A handler's result is an `Exchange`. It holds what
the wrapper recorded (status, forwarded codes, header, body), the library
calls in order, the error lines logged, and the fields of the deferred
access-log line.

Three behaviours of the code worth noting:
- The wrapper keeps the code of the last `WriteHeader` call, not the first
  (opencc-api.go:20-23). `LastWriteHeaderWins` states this.
- On a conversion error the form endpoint keeps whatever `Convert` returned. It
  does not use the empty string (opencc-api.go:178-187).
- When the converter cannot be built, the form endpoint's log line shows status
  0, because nothing went through the wrapper. The client receives net/http's
  implicit 200.

## Model

| member | source | states |
|---|---|---|
| `Schemes.ScanList` | opencc-api.go:86-92 | the `for`/`break` loop over a list ends with `valid` equal to `Found` of that list, that is, true exactly when the mode is an entry of the list |
| `Schemes.FoundIsIn` | opencc-api.go:86-92 | the first-match scan `Found` (true at the first equal entry, false when the list runs out) is true exactly when the mode is in the list |
| `Schemes.ScanSchemes` | opencc-api.go:86-92 | the scan loop (also at lines 151-157) run over `SCHEMES` ends with `valid` true exactly when the mode equals one of the `SCHEMES` entries |
| `Schemes.SchemesDistinct` | opencc-api.go:45-47 | the catalogue has ten pairwise distinct entries |
| `Schemes.IsSchemeIffListed` | opencc-api.go:45-47 | a mode is valid iff it is one of `s2t, t2s, s2tw, tw2s, s2hk, hk2s, s2twp, tw2sp, t2tw, t2hk` |
| `Schemes.ScanOrderIrrelevant` | opencc-api.go:86-92 | the first-match scan over any reordering of the catalogue gives the same answer as the scan over `SCHEMES` |
| `Schemes.SchemeShape` | opencc-api.go:45-47 | no valid scheme is empty or contains `/` |
| `Schemes.DefaultIsScheme` | opencc-api.go:158-159 | the default `t2s` is itself a catalogue entry |
| `GoStrings.TrimPrefix` | opencc-api.go:85 | with the prefix present, prefix + result is the input; otherwise the input is returned unchanged |
| `GoStrings.Split` | opencc-api.go:146 | at least one piece, and no piece contains the separator |
| `GoStrings.JoinSplit` | opencc-api.go:146 | joining the pieces with the separator gives back the path |
| `GoStrings.SplitJoin` | opencc-api.go:146 | splitting a join of separator-free pieces gives back the pieces (Split is injective) |
| `GoStrings.SplitManyIffSep` | opencc-api.go:147 | `len(parts) > 1` exactly when the path contains `/` |
| `GoStrings.SplitAtFirst` | opencc-api.go:146 | splitting at the first separator yields the piece before it followed by the split of the rest |
| `GoStrings.LeadingSpace` | opencc-api.go:182 | the cut where `TrimLeftFunc` stops: everything before it is white space, and the code point at it is not |
| `GoStrings.TrailingSpace` | opencc-api.go:182 | the cut where `TrimRightFunc` stops: everything from it on is white space, and the code point before it is not |
| `GoStrings.TrimSpace` | opencc-api.go:182 | the result is no longer than the input and neither starts nor ends with white space |
| `GoStrings.TrimSpaceIsInfix` | opencc-api.go:182 | the result is the contiguous infix that starts at the leading cut, and all it removed from both ends is white space |
| `GoStrings.TrimSpaceIdempotent` | opencc-api.go:182 | trimming twice equals trimming once |
| `GoStrings.RuneLen` | opencc-api.go:143 | a code point takes one to four UTF-8 bytes, and one exactly when it is ASCII |
| `GoStrings.ByteLenBounds` | opencc-api.go:143 | the byte length `len` reports lies between the character count and four times it |
| `GoStrings.ByteLenAscii` | opencc-api.go:104 | for ASCII text `len` equals the character count |
| `GoStrings.ByteLenConcat` | opencc-api.go:143 | `len` is additive over concatenation |
| `ResponseWriting.ResponseWriter.constructor` | opencc-api.go:71 | a fresh wrapper has `statusCode` 0 around the given writer |
| `ResponseWriting.ResponseWriter.WriteHeader` | opencc-api.go:20-23 | sets `statusCode` to the code on every call and forwards the code; the body and the header are unchanged |
| `ResponseWriting.ResponseWriter.Write` | opencc-api.go:25-30 | sets 200 only while `statusCode` is 0, and appends exactly the given bytes to the wrapped writer's body |
| `ResponseWriting.ResponseWriter.SetHeader` | opencc-api.go:122 | `Header().Set` reaches the wrapped writer and leaves `statusCode` alone |
| `ResponseWriting.ReplayAppend` | opencc-api.go:15-30 | running two call sequences one after the other equals running their concatenation |
| `ResponseWriting.ReplayForwards` | opencc-api.go:20-30 | after any calls, the wrapped writer's body is the written bytes in order and its codes are the `WriteHeader` codes in order |
| `ResponseWriting.WritesKeepStatus` | opencc-api.go:25-30 | once a non-zero status is recorded, writes never change it |
| `ResponseWriting.ImplicitStatus` | opencc-api.go:25-30 | without `WriteHeader`, the status is 200 if anything was written and 0 otherwise |
| `ResponseWriting.LastWriteHeaderWins` | opencc-api.go:20-30 | the recorded status is the last `WriteHeader` code whenever that code is non-zero |
| `Legacy.PathMode` | opencc-api.go:145-149 | the mode taken from `Split(path, "/")[1]` contains no `/` |
| `Legacy.ReadMode` | opencc-api.go:145-157 | yields `PathMode(path)` and whether the scan found it in the catalogue |
| `Legacy.Respond` | opencc-api.go:178-196 | converts the title, then the content, logs each error, and writes the marshalled `Ret{TrimSpace(title output), content output}` |
| `Legacy.Handle` | opencc-api.go:128-197 | the step-by-step handler produces exactly `LegacyExchange`, including the deferred log line (lines 136-138) built from the title, content length and mode as they stand at each return and the wrapper's recorded status |
| `Legacy.LegacyLogFields` | opencc-api.go:136-143 | on every path the log has the raw title, the byte length of the raw content and the recorded status; no code is set explicitly, so the status is 0 or 200 |
| `Legacy.PathModeOf` | opencc-api.go:145-149 | `/m` and `/m/rest` name mode `m`; a path with no `/` names the empty mode |
| `Legacy.EmptyModeDefaults` | opencc-api.go:158-159 | an empty mode is never rejected: the first library call builds `t2s`, and the log shows `t2s` |
| `Legacy.InvalidSchemeReply` | opencc-api.go:160-165 | a non-empty unknown mode gets exactly `Invalid convert scheme.` with status 200 and no library call |
| `Legacy.InitFailureIsSilent` | opencc-api.go:168-177 | when construction fails, nothing is written or converted, the status stays 0, and only the error is logged |
| `Legacy.SuccessReply` | opencc-api.go:178-196 | the body is the marshalled `{TrimSpace(convert(title)), convert(content)}` with status 200; the title is converted before the content |
| `Legacy.ConversionErrorsDoNotStop` | opencc-api.go:178-187 | conversion errors change only the error log; the response, the calls and the access-log line equal those made with the same outputs and no errors |
| `Legacy.S2tFormRequest` | opencc_api_test.go:12-32 | `POST /s2t` with title and content, when `s2t` can be built, gets status 200 and the marshalled converted pair |
| `Legacy.UnknownSchemePath` | opencc-api.go:145-165 | `/m` for a non-empty `m` outside the catalogue, such as `/invalid_scheme`, gets status 200 and exactly `Invalid convert scheme.`, with no library call |
| `Api.Error` | opencc-api.go:81 | `http.Error` records the code, then writes the message |
| `Api.Handle` | opencc-api.go:69-126 | the step-by-step handler produces exactly `ApiExchange`, including the deferred log line (lines 76-78) with title `-` and the content length, mode and wrapper status as they stand at each return |
| `Api.MethodCheckedFirst` | opencc-api.go:80-83 | a method other than POST gives the same 405 outcome for any path, body, library or codec, and the log has no mode and length 0 |
| `Api.InvalidSchemeRejected` | opencc-api.go:85-97 | a POST whose path suffix is not in the catalogue gets 400 `Invalid convert scheme`, with no library call and length 0 |
| `Api.TrailingSlashRejected` | opencc-api.go:85 | the suffix must match exactly: `/api/m/` gets 400 even when `m` is valid |
| `Api.BadJsonRejected` | opencc-api.go:99-103 | an undecodable body gets 400 `Invalid JSON payload` before any converter is built, with length 0 |
| `Api.InitFailureIs500` | opencc-api.go:104-110 | a construction failure gets 500 with the library's message after one `New` call; the length is already recorded |
| `Api.ConvertFailureIs500` | opencc-api.go:112-116 | a conversion failure gets 500 with the library's message, whatever output came with it |
| `Api.SuccessReply` | opencc-api.go:118-125 | success sets no code explicitly, so the write makes it 200; Content-Type is application/json and the body is the encoded `{converted}` |
| `Api.StatusCases` | opencc-api.go:76-125 | the status is one of 200, 400, 405 and 500, the log shows it, and it is 200 exactly when no code was set explicitly |
| `Routing.Serve` | opencc-api.go:63-64 | a path under `/api/` is served by the API handler and every other path by the form handler, whatever the method, apart from the ServeMux redirects listed under Left out |
| `Routing.RouteSplitsPath` | opencc-api.go:63-64 | an API-routed path is `/api/` followed by the mode that handler checks, and a form-routed path never starts with `/api/` |
| `Routing.ApiPathReachesApi` | opencc-api.go:64 | `/api/m` reaches the API handler, which checks exactly `m` |

## Left out

- The OpenCC library (`occ.New`, `cc.Convert`) and its dictionaries are parameters. So are the test's expected conversions (opencc_api_test.go:42-49) and anything about what a conversion produces.
- `encoding/json` is abstract: decoding is a function to an optional request, and marshalling and encoding are functions to strings. Marshal failures, encoder write failures and their log lines (opencc-api.go:123-125, 192-195) are not modelled; with string fields the first cannot occur.
- `ParseForm` and `FormValue` are not modelled: the request carries the parsed form as a map, and an absent key reads as "".
- `http.Error` is modelled as `WriteHeader(code)` followed by `Write(message)`. Its header changes and the newline it appends are not modelled.
- The wrapped `http.ResponseWriter` (`Sink`) only keeps what it is handed. Its own handling of repeated or missing status codes, and the counts and errors its `Write` returns, are not modelled.
- ServeMux's redirect of `/api` to `/api/`, its path cleaning, and `ListenAndServe` are not modelled.
- The log's output format, the `time.Now`/`time.Since` duration, and the startup lines of `main` (opencc-api.go:55-62, 65-66) are I/O and are not modelled.
- Concurrent requests are not modelled. Each `Exchange` is computed on its own, and requests share only the constant catalogue.
- Strings are sequences of Unicode code points. Go's byte strings that are not valid UTF-8 have no counterpart, so `ByteLen` equals Go's `len` only for well-formed text.

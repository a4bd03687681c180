/**
 * The records the handlers read and produce, and the outside capabilities
 * they use (the OpenCC library, JSON encoding) as function values.
 */
module Messages {
  import opened Wrappers
  import opened ResponseWriting

  /** An incoming request: `verb` is `r.Method`, `form` the already parsed form. */
  datatype Request = Request(verb: string, path: string, form: map<string, string>, body: string)

  /** `r.FormValue(key)`: the empty string when the key is absent. */
  function FormValue(req: Request, key: string): string {
    if key in req.form then req.form[key] else ""
  }

  /** `Ret`, the legacy endpoint's JSON reply. */
  datatype Ret = Ret(title: string, content: string)

  /** `ConvertRequest`, the API endpoint's JSON request body. */
  datatype ConvertRequest = ConvertRequest(text: string)

  /** `ConvertResponse`, the API endpoint's JSON reply. */
  datatype ConvertResponse = ConvertResponse(converted: string)

  /** What `cc.Convert` returns: an output string and, possibly, an error. */
  datatype Converted = Converted(output: string, err: Option<string>)

  /**
   * The OpenCC library: `occ.New(mode)` builds a converter or fails,
   * `cc.Convert(text)` converts. Errors are carried as their `%v` text.
   */
  datatype OpenCC<!C> = OpenCC(newConverter: string -> Result<C, string>, convert: (C, string) -> Converted)

  /** `encoding/json` as the handlers use it. */
  datatype Json = Json(
    decodeRequest: string -> Option<ConvertRequest>,
    marshalRet: Ret -> string,
    encodeResponse: ConvertResponse -> string)

  /** A call into the OpenCC library, in the order the handler makes them. */
  datatype LibraryCall = NewCall(mode: string) | ConvertCall(text: string)

  /** The fields of the deferred access-log line (the duration is not modelled). */
  datatype LogLine = LogLine(title: string, contentLength: nat, mode: string, status: int)

  /**
   * Everything one request leaves behind: what the wrapper recorded, the
   * library calls, the error lines logged, and the access-log line.
   */
  datatype Exchange = Exchange(recorded: Recorded, calls: seq<LibraryCall>, errors: seq<string>, access: LogLine)
}

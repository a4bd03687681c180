/** `apiHandler`: the JSON endpoint `/api/{scheme}`, strict in its errors. */
module Api {
  import opened Wrappers
  import opened GoStrings
  import opened Schemes
  import opened ResponseWriting
  import opened Messages

  const ApiPrefix := "/api/"
  const MethodPost := "POST"
  const StatusBadRequest := 400
  const StatusMethodNotAllowed := 405
  const StatusInternalServerError := 500

  /** The mode named by a path: the path with a leading `/api/` removed. */
  function ApiMode(path: string): string {
    TrimPrefix(path, ApiPrefix)
  }

  /** `http.Error(rw, msg, code)`: the code, then the message as the body. */
  function AfterError(r: Recorded, msg: string, code: int): Recorded {
    AfterWrite(AfterWriteHeader(r, code), msg)
  }

  /** A request stopped by `http.Error`, with the access-log line as it stands at that return. */
  function Failed(msg: string, code: int, calls: seq<LibraryCall>, contentLength: nat, mode: string): Exchange {
    var rec := AfterError(Untouched, msg, code);
    Exchange(rec, calls, [], LogLine("-", contentLength, mode, rec.statusCode))
  }

  /** What one request to the JSON endpoint leaves behind. */
  function ApiExchange<C>(req: Request, cc: OpenCC<C>, json: Json): Exchange {
    if req.verb != MethodPost then
      Failed("Method not allowed", StatusMethodNotAllowed, [], 0, "")
    else
      var mode := ApiMode(req.path);
      if !IsScheme(mode) then
        Failed("Invalid convert scheme", StatusBadRequest, [], 0, mode)
      else match json.decodeRequest(req.body)
        case None =>
          Failed("Invalid JSON payload", StatusBadRequest, [], 0, mode)
        case Some(creq) =>
          var contentLength := ByteLen(creq.text);
          match cc.newConverter(mode)
          case Err(e) =>
            Failed("Failed to initialize OpenCC: " + e, StatusInternalServerError, [NewCall(mode)], contentLength, mode)
          case Ok(c) =>
            var out := cc.convert(c, creq.text);
            var calls := [NewCall(mode), ConvertCall(creq.text)];
            if out.err.Some? then
              Failed("Conversion failed: " + out.err.value, StatusInternalServerError, calls, contentLength, mode)
            else
              var rec := AfterWrite(AfterSetHeader(Untouched, "Content-Type", "application/json"),
                                    json.encodeResponse(ConvertResponse(out.output)));
              Exchange(rec, calls, [], LogLine("-", contentLength, mode, rec.statusCode))
  }

  /** The deferred log call of `apiHandler`: the title field is always "-". */
  method Finish(rw: ResponseWriter, calls: seq<LibraryCall>, contentLength: nat, mode: string) returns (ex: Exchange)
    ensures ex == Exchange(rw.Snapshot(), calls, [], LogLine("-", contentLength, mode, rw.statusCode))
  {
    ex := Exchange(rw.Snapshot(), calls, [], LogLine("-", contentLength, mode, rw.statusCode));
  }

  /** `http.Error` on the wrapper. */
  method Error(rw: ResponseWriter, msg: string, code: int)
    modifies rw, rw.inner
    ensures rw.Snapshot() == AfterError(old(rw.Snapshot()), msg, code)
  {
    rw.WriteHeader(code);
    rw.Write(msg);
  }

  /** `apiHandler`, step by step; every `return` goes through the deferred log call. */
  method Handle<C>(req: Request, cc: OpenCC<C>, json: Json) returns (ex: Exchange)
    ensures ex == ApiExchange(req, cc, json)
  {
    var w := new Sink();
    var rw := new ResponseWriter(w);
    var contentLength := 0;
    var mode := "";

    if req.verb != MethodPost {
      Error(rw, "Method not allowed", StatusMethodNotAllowed);
      ex := Finish(rw, [], contentLength, mode);
      return;
    }

    mode := TrimPrefix(req.path, ApiPrefix);
    var valid := ScanSchemes(mode);
    if !valid {
      Error(rw, "Invalid convert scheme", StatusBadRequest);
      ex := Finish(rw, [], contentLength, mode);
      return;
    }

    var decoded := json.decodeRequest(req.body);
    if decoded.None? {
      Error(rw, "Invalid JSON payload", StatusBadRequest);
      ex := Finish(rw, [], contentLength, mode);
      return;
    }
    var creq := decoded.value;
    contentLength := ByteLen(creq.text);

    var calls := [NewCall(mode)];
    var built := cc.newConverter(mode);
    if built.Err? {
      Error(rw, "Failed to initialize OpenCC: " + built.error, StatusInternalServerError);
      ex := Finish(rw, calls, contentLength, mode);
      return;
    }

    var converted := cc.convert(built.value, creq.text);
    calls := calls + [ConvertCall(creq.text)];
    if converted.err.Some? {
      Error(rw, "Conversion failed: " + converted.err.value, StatusInternalServerError);
      ex := Finish(rw, calls, contentLength, mode);
      return;
    }

    var resp := ConvertResponse(converted.output);
    rw.SetHeader("Content-Type", "application/json");
    rw.Write(json.encodeResponse(resp));
    ex := Finish(rw, calls, contentLength, mode);
  }

  /**
   * A method other than POST is answered 405 before anything else is looked
   * at: the whole outcome is the same whatever the path, body, library or
   * codec, and the log line still has no mode and no length.
   */
  lemma MethodCheckedFirst<C, D>(req: Request, cc: OpenCC<C>, json: Json, other: Request, cc': OpenCC<D>, json': Json)
    requires req.verb != MethodPost && other.verb == req.verb
    ensures ApiExchange(req, cc, json) == ApiExchange(other, cc', json')
    ensures var ex := ApiExchange(req, cc, json);
      && ex.recorded.statusCode == 405
      && ex.recorded.body == "Method not allowed"
      && ex.calls == []
      && ex.access == LogLine("-", 0, "", 405)
  {
  }

  /** A POST whose path suffix is not a catalogue entry: 400, no library call, length 0. */
  lemma InvalidSchemeRejected<C>(req: Request, cc: OpenCC<C>, json: Json)
    requires req.verb == MethodPost && !IsScheme(ApiMode(req.path))
    ensures var ex := ApiExchange(req, cc, json);
      && ex.recorded.statusCode == 400
      && ex.recorded.sentCodes == [400]
      && ex.recorded.body == "Invalid convert scheme"
      && ex.calls == []
      && ex.access == LogLine("-", 0, ApiMode(req.path), 400)
  {
  }

  /** The suffix must match exactly: `/api/s2t/` is rejected although `/api/s2t` is accepted. */
  lemma TrailingSlashRejected<C>(m: string, body: string, form: map<string, string>, cc: OpenCC<C>, json: Json)
    requires IsScheme(m)
    ensures ApiMode("/api/" + m) == m
    ensures ApiExchange(Request("POST", "/api/" + m + "/", form, body), cc, json).recorded.statusCode == 400
  {
    assert HasPrefix("/api/" + m, ApiPrefix);
    var req := Request("POST", "/api/" + m + "/", form, body);
    assert HasPrefix(req.path, ApiPrefix);
    assert ApiMode(req.path) == m + "/";
    assert '/' in m + "/";
    SchemeShape(m);
    InvalidSchemeRejected(req, cc, json);
  }

  /** An undecodable body: 400 before any converter is built, length 0. */
  lemma BadJsonRejected<C>(req: Request, cc: OpenCC<C>, json: Json)
    requires req.verb == MethodPost && IsScheme(ApiMode(req.path))
    requires json.decodeRequest(req.body).None?
    ensures var ex := ApiExchange(req, cc, json);
      && ex.recorded.statusCode == 400
      && ex.recorded.body == "Invalid JSON payload"
      && ex.calls == []
      && ex.access.contentLength == 0
  {
  }

  /** Converter construction fails: 500 with the library's message; nothing is converted. */
  lemma InitFailureIs500<C>(req: Request, cc: OpenCC<C>, json: Json)
    requires req.verb == MethodPost && IsScheme(ApiMode(req.path))
    requires json.decodeRequest(req.body).Some?
    requires cc.newConverter(ApiMode(req.path)).Err?
    ensures var ex := ApiExchange(req, cc, json);
      && ex.recorded.statusCode == 500
      && ex.recorded.body == "Failed to initialize OpenCC: " + cc.newConverter(ApiMode(req.path)).error
      && ex.calls == [NewCall(ApiMode(req.path))]
      && ex.access.contentLength == ByteLen(json.decodeRequest(req.body).value.text)
  {
  }

  /** Conversion fails: 500 with the library's message, whatever output came with it. */
  lemma ConvertFailureIs500<C>(req: Request, cc: OpenCC<C>, json: Json)
    requires req.verb == MethodPost && IsScheme(ApiMode(req.path))
    requires json.decodeRequest(req.body).Some?
    requires cc.newConverter(ApiMode(req.path)).Ok?
    requires cc.convert(cc.newConverter(ApiMode(req.path)).value, json.decodeRequest(req.body).value.text).err.Some?
    ensures var ex := ApiExchange(req, cc, json);
      var text := json.decodeRequest(req.body).value.text;
      var out := cc.convert(cc.newConverter(ApiMode(req.path)).value, text);
      && ex.recorded.statusCode == 500
      && ex.recorded.body == "Conversion failed: " + out.err.value
      && ex.calls == [NewCall(ApiMode(req.path)), ConvertCall(text)]
  {
  }

  /** Success: 200 set by the write, JSON content type, body the encoded `{converted}`. */
  lemma SuccessReply<C>(req: Request, cc: OpenCC<C>, json: Json)
    requires req.verb == MethodPost && IsScheme(ApiMode(req.path))
    requires json.decodeRequest(req.body).Some?
    requires cc.newConverter(ApiMode(req.path)).Ok?
    requires cc.convert(cc.newConverter(ApiMode(req.path)).value, json.decodeRequest(req.body).value.text).err.None?
    ensures var ex := ApiExchange(req, cc, json);
      var text := json.decodeRequest(req.body).value.text;
      var out := cc.convert(cc.newConverter(ApiMode(req.path)).value, text);
      && ex.recorded.statusCode == 200
      && ex.recorded.sentCodes == []
      && ex.recorded.header == map["Content-Type" := "application/json"]
      && ex.recorded.body == json.encodeResponse(ConvertResponse(out.output))
      && ex.access == LogLine("-", ByteLen(text), ApiMode(req.path), 200)
  {
  }

  /**
   * Every outcome: the log shows the recorded status; the status is one of
   * 200, 400, 405, 500; it is 200 exactly when no code was set explicitly.
   */
  lemma StatusCases<C>(req: Request, cc: OpenCC<C>, json: Json)
    ensures var ex := ApiExchange(req, cc, json);
      && ex.access.status == ex.recorded.statusCode
      && ex.recorded.statusCode in {200, 400, 405, 500}
      && (ex.recorded.statusCode == 200 <==> ex.recorded.sentCodes == [])
  {
  }
}

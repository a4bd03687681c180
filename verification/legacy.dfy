/** `handler`: the form endpoint `/{scheme}`, permissive in its errors. */
module Legacy {
  import opened Wrappers
  import opened GoStrings
  import opened Schemes
  import opened ResponseWriting
  import opened Messages

  const DefaultMode := "t2s"
  const InvalidSchemeText := "Invalid convert scheme."
  const InitErrorPrefix := "Error initializing OpenCC: "
  const TitleErrorPrefix := "Error converting title: "
  const ContentErrorPrefix := "Error converting content: "

  /** The mode named by a path: `strings.Split(path, "/")[1]`, or "" when there is no second piece. */
  function PathMode(path: string): (mode: string)
    ensures '/' !in mode
  {
    var parts := Split(path, '/');
    if |parts| > 1 then parts[1] else ""
  }

  /** The mode used for conversion: an empty mode becomes `t2s`. */
  function ResolvedMode(path: string): string {
    var parsed := PathMode(path);
    if parsed == "" then DefaultMode else parsed
  }

  /** The request is turned away with the plain sentence. */
  predicate Rejected(path: string) {
    PathMode(path) != "" && !IsScheme(PathMode(path))
  }

  /** The conversion errors logged for the title and the content, in that order. */
  function ConversionErrors(title: Converted, content: Converted): seq<string> {
    (if title.err.Some? then [TitleErrorPrefix + title.err.value] else [])
    + (if content.err.Some? then [ContentErrorPrefix + content.err.value] else [])
  }

  /** What one request to the form endpoint leaves behind. */
  function LegacyExchange<C>(req: Request, cc: OpenCC<C>, json: Json): Exchange
  {
    var title := FormValue(req, "title");
    var content := FormValue(req, "content");
    var contentLength := ByteLen(content);
    if Rejected(req.path) then
      var rec := AfterWrite(Untouched, InvalidSchemeText);
      Exchange(rec, [], [], LogLine(title, contentLength, PathMode(req.path), rec.statusCode))
    else
      var mode := ResolvedMode(req.path);
      match cc.newConverter(mode)
      case Err(e) =>
        Exchange(Untouched, [NewCall(mode)], [InitErrorPrefix + e], LogLine(title, contentLength, mode, 0))
      case Ok(c) =>
        var t := cc.convert(c, title);
        var k := cc.convert(c, content);
        var rec := AfterWrite(Untouched, json.marshalRet(Ret(TrimSpace(t.output), k.output)));
        Exchange(rec, [NewCall(mode), ConvertCall(title), ConvertCall(content)], ConversionErrors(t, k),
                 LogLine(title, contentLength, mode, rec.statusCode))
  }

  /** The deferred log call: the access-log line is built from the locals as they are at exit. */
  method Finish(rw: ResponseWriter, calls: seq<LibraryCall>, errors: seq<string>, title: string, contentLength: nat, mode: string)
    returns (ex: Exchange)
    ensures ex == Exchange(rw.Snapshot(), calls, errors, LogLine(title, contentLength, mode, rw.statusCode))
  {
    ex := Exchange(rw.Snapshot(), calls, errors, LogLine(title, contentLength, mode, rw.statusCode));
  }

  /** The mode piece of the path and whether the scan over SCHEMES found it. */
  method ReadMode(path: string) returns (mode: string, valid: bool)
    ensures mode == PathMode(path)
    ensures valid <==> IsScheme(mode)
  {
    mode := "";
    var parts := Split(path, '/');
    if |parts| > 1 {
      mode := parts[1];
    }
    valid := ScanSchemes(mode);
  }

  /**
   * The part of `handler` after the converter is built: convert the title,
   * then the content, logging each error and keeping the output regardless,
   * and write the marshalled `Ret`.
   */
  method Respond<C>(rw: ResponseWriter, cc: OpenCC<C>, c: C, json: Json, title: string, content: string)
    returns (calls: seq<LibraryCall>, errors: seq<string>)
    modifies rw, rw.inner
    ensures calls == [ConvertCall(title), ConvertCall(content)]
    ensures errors == ConversionErrors(cc.convert(c, title), cc.convert(c, content))
    ensures rw.Snapshot() == AfterWrite(old(rw.Snapshot()),
      json.marshalRet(Ret(TrimSpace(cc.convert(c, title).output), cc.convert(c, content).output)))
  {
    errors := [];
    var output := cc.convert(c, title);
    calls := [ConvertCall(title)];
    if output.err.Some? {
      errors := errors + [TitleErrorPrefix + output.err.value];
    }
    var titleConverted := TrimSpace(output.output);
    output := cc.convert(c, content);
    calls := calls + [ConvertCall(content)];
    if output.err.Some? {
      errors := errors + [ContentErrorPrefix + output.err.value];
    }
    var converted := output.output;

    var ret := Ret(titleConverted, converted);
    var retJson := json.marshalRet(ret);
    rw.Write(retJson);
  }

  /** `handler`, step by step; every `return` goes through the deferred log call. */
  method Handle<C>(req: Request, cc: OpenCC<C>, json: Json) returns (ex: Exchange)
    ensures ex == LegacyExchange(req, cc, json)
  {
    var w := new Sink();
    var rw := new ResponseWriter(w);
    var title := FormValue(req, "title");
    var content := FormValue(req, "content");
    var contentLength := ByteLen(content);

    var mode, valid := ReadMode(req.path);
    if |mode| == 0 {
      mode := DefaultMode;
    } else if !valid {
      rw.Write(InvalidSchemeText);
      ex := Finish(rw, [], [], title, contentLength, mode);
      return;
    }
    assert !Rejected(req.path) && mode == ResolvedMode(req.path);

    var calls := [NewCall(mode)];
    var built := cc.newConverter(mode);
    if built.Err? {
      ex := Finish(rw, calls, [InitErrorPrefix + built.error], title, contentLength, mode);
      return;
    }
    var more, errors := Respond(rw, cc, built.value, json, title, content);
    calls := calls + more;
    ex := Finish(rw, calls, errors, title, contentLength, mode);
  }

  /**
   * On every path: the log line carries the raw form title, the byte length
   * of the raw form content and the status the wrapper recorded; no status
   * is ever set explicitly, so that status is 0 or the implicit 200.
   */
  lemma LegacyLogFields<C>(req: Request, cc: OpenCC<C>, json: Json)
    ensures var ex := LegacyExchange(req, cc, json);
      && ex.access.title == FormValue(req, "title")
      && ex.access.contentLength == ByteLen(FormValue(req, "content"))
      && ex.access.status == ex.recorded.statusCode
      && ex.recorded.sentCodes == [] && ex.recorded.header == map[]
      && (ex.recorded.statusCode == 0 || ex.recorded.statusCode == StatusOK)
  {
  }

  /** `/{m}` and `/{m}/{rest}` both name the mode `m`; a path without a slash names none. */
  lemma PathModeOf(m: string, rest: string)
    requires '/' !in m
    ensures PathMode("/" + m) == m
    ensures PathMode("/" + m + "/" + rest) == m
    ensures PathMode(m) == ""
  {
    SplitNoSep(m, '/');
    var single := "/" + m;
    assert single == [] + ['/'] + m;
    SplitAtFirst([], '/', m);
    assert Split(single, '/') == [[], m];

    var tail := m + "/" + rest;
    var double := "/" + m + "/" + rest;
    assert tail == m + ['/'] + rest;
    assert double == [] + ['/'] + tail;
    SplitAtFirst(m, '/', rest);
    SplitAtFirst([], '/', tail);
    assert Split(double, '/') == [[]] + ([m] + Split(rest, '/'));
  }

  /** An empty mode is never rejected: `t2s` is built and used. */
  lemma EmptyModeDefaults<C>(req: Request, cc: OpenCC<C>, json: Json)
    requires PathMode(req.path) == ""
    ensures var ex := LegacyExchange(req, cc, json);
      && ex.calls != [] && ex.calls[0] == NewCall(DefaultMode)
      && ex.access.mode == DefaultMode
  {
  }

  /**
   * A non-empty mode outside the catalogue: the body is exactly the sentence,
   * the status 200 (set by the write), and the library is never called.
   */
  lemma InvalidSchemeReply<C>(req: Request, cc: OpenCC<C>, json: Json)
    requires PathMode(req.path) != "" && !IsScheme(PathMode(req.path))
    ensures var ex := LegacyExchange(req, cc, json);
      && ex.recorded.body == "Invalid convert scheme."
      && ex.recorded.statusCode == 200
      && ex.calls == [] && ex.errors == []
      && ex.access.mode == PathMode(req.path)
  {
  }

  /**
   * Converter construction fails: nothing is written, nothing is converted,
   * the recorded status stays 0 and only the error is logged.
   */
  lemma InitFailureIsSilent<C>(req: Request, cc: OpenCC<C>, json: Json)
    requires !Rejected(req.path)
    requires cc.newConverter(ResolvedMode(req.path)).Err?
    ensures var ex := LegacyExchange(req, cc, json);
      && ex.recorded == Untouched
      && ex.calls == [NewCall(ResolvedMode(req.path))]
      && ex.errors == [InitErrorPrefix + cc.newConverter(ResolvedMode(req.path)).error]
      && ex.access.status == 0
  {
  }

  /**
   * Success: the body is the JSON of the trimmed converted title and the
   * untrimmed converted content, status 200, title converted before content.
   */
  lemma SuccessReply<C>(req: Request, cc: OpenCC<C>, json: Json)
    requires !Rejected(req.path)
    requires cc.newConverter(ResolvedMode(req.path)).Ok?
    ensures var c := cc.newConverter(ResolvedMode(req.path)).value;
      var title := FormValue(req, "title");
      var content := FormValue(req, "content");
      var ex := LegacyExchange(req, cc, json);
      && ex.recorded.body == json.marshalRet(Ret(TrimSpace(cc.convert(c, title).output), cc.convert(c, content).output))
      && ex.recorded.statusCode == 200
      && ex.calls == [NewCall(ResolvedMode(req.path)), ConvertCall(title), ConvertCall(content)]
      && ex.errors == ConversionErrors(cc.convert(c, title), cc.convert(c, content))
  {
  }

  /** The same library with every conversion error dropped and the outputs kept. */
  function ErrorsDropped<C>(cc: OpenCC<C>): OpenCC<C> {
    OpenCC(cc.newConverter, (c, text) => Converted(cc.convert(c, text).output, None))
  }

  /**
   * Conversion errors are logged and nothing more: the response is the one
   * the same outputs would give without any error.
   */
  lemma ConversionErrorsDoNotStop<C>(req: Request, cc: OpenCC<C>, json: Json)
    ensures LegacyExchange(req, cc, json).recorded == LegacyExchange(req, ErrorsDropped(cc), json).recorded
    ensures LegacyExchange(req, cc, json).calls == LegacyExchange(req, ErrorsDropped(cc), json).calls
    ensures LegacyExchange(req, cc, json).access == LegacyExchange(req, ErrorsDropped(cc), json).access
  {
  }

  /**
   * `POST /s2t` with a title and a content field: when `s2t` can be built,
   * the reply has status 200 and is the marshalled pair of converted fields.
   */
  lemma S2tFormRequest<C>(title: string, content: string, cc: OpenCC<C>, json: Json)
    requires cc.newConverter("s2t").Ok?
    ensures var c := cc.newConverter("s2t").value;
      var ex := LegacyExchange(Request("POST", "/s2t", map["title" := title, "content" := content], ""), cc, json);
      && ex.recorded.statusCode == 200
      && ex.calls == [NewCall("s2t"), ConvertCall(title), ConvertCall(content)]
      && ex.recorded.body == json.marshalRet(Ret(TrimSpace(cc.convert(c, title).output), cc.convert(c, content).output))
  {
    var req := Request("POST", "/s2t", map["title" := title, "content" := content], "");
    PathModeOf("s2t", "");
    assert PathMode(req.path) == "s2t" && IsScheme("s2t");
    assert FormValue(req, "title") == title && FormValue(req, "content") == content;
    SuccessReply(req, cc, json);
  }

  /**
   * `/{m}` for any non-empty `m` outside the catalogue (`/invalid_scheme`,
   * say): status 200 and exactly the sentence, whatever the method, the form
   * and the library.
   */
  lemma UnknownSchemePath<C>(verb: string, m: string, form: map<string, string>, body: string, cc: OpenCC<C>, json: Json)
    requires m != "" && '/' !in m && !IsScheme(m)
    ensures var ex := LegacyExchange(Request(verb, "/" + m, form, body), cc, json);
      && ex.recorded.statusCode == 200
      && ex.recorded.body == "Invalid convert scheme."
      && ex.calls == []
  {
    PathModeOf(m, "");
    InvalidSchemeReply(Request(verb, "/" + m, form, body), cc, json);
  }
}

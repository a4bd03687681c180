/**
 * The status-capturing response wrapper. `ResponseWriter` embeds the
 * handler's `http.ResponseWriter` (here `Sink`, which keeps what it is
 * handed) and records in `statusCode` the status for the access log.
 */
module ResponseWriting {

  const StatusOK := 200

  /**
   * What the wrapper has observed: its own `statusCode` and what reached the
   * wrapped writer (status codes forwarded, header fields, body bytes).
   */
  datatype Recorded = Recorded(statusCode: int, sentCodes: seq<int>, header: map<string, string>, body: string)

  /** A wrapper just built around a fresh writer: `statusCode` is 0. */
  const Untouched := Recorded(0, [], map[], "")

  /** State after `WriteHeader(code)`. */
  function AfterWriteHeader(r: Recorded, code: int): Recorded {
    r.(statusCode := code, sentCodes := r.sentCodes + [code])
  }

  /** State after `Write(b)`. */
  function AfterWrite(r: Recorded, b: string): Recorded {
    r.(statusCode := if r.statusCode == 0 then StatusOK else r.statusCode, body := r.body + b)
  }

  /** State after `Header().Set(key, value)`, reached through the embedded writer. */
  function AfterSetHeader(r: Recorded, key: string, value: string): Recorded {
    r.(header := r.header[key := value])
  }

  /** The wrapped `http.ResponseWriter`, seen as a record of what it was handed. */
  class Sink {
    var sentCodes: seq<int>
    var header: map<string, string>
    var body: string

    constructor ()
      ensures sentCodes == [] && header == map[] && body == ""
    {
      sentCodes, header, body := [], map[], "";
    }

    method WriteHeader(code: int)
      modifies this
      ensures sentCodes == old(sentCodes) + [code]
      ensures header == old(header) && body == old(body)
    {
      sentCodes := sentCodes + [code];
    }

    method Write(b: string)
      modifies this
      ensures body == old(body) + b
      ensures sentCodes == old(sentCodes) && header == old(header)
    {
      body := body + b;
    }

    method SetHeader(key: string, value: string)
      modifies this
      ensures header == old(header)[key := value]
      ensures sentCodes == old(sentCodes) && body == old(body)
    {
      header := header[key := value];
    }
  }

  class ResponseWriter {
    const inner: Sink
    var statusCode: int

    /** `&responseWriter{ResponseWriter: w}`: `statusCode` starts at 0. */
    constructor (w: Sink)
      ensures inner == w && statusCode == 0
    {
      inner := w;
      statusCode := 0;
    }

    function Snapshot(): Recorded
      reads this, inner
    {
      Recorded(statusCode, inner.sentCodes, inner.header, inner.body)
    }

    /** Overwrites `statusCode` on every call and forwards the code. */
    method WriteHeader(code: int)
      modifies this, inner
      ensures Snapshot() == AfterWriteHeader(old(Snapshot()), code)
    {
      statusCode := code;
      inner.WriteHeader(code);
    }

    /** Defaults `statusCode` to 200 only while it is 0; forwards `b` as it is. */
    method Write(b: string)
      modifies this, inner
      ensures Snapshot() == AfterWrite(old(Snapshot()), b)
    {
      if statusCode == 0 {
        statusCode := StatusOK;
      }
      inner.Write(b);
    }

    /** `Header().Set(key, value)` on the embedded writer; `statusCode` is untouched. */
    method SetHeader(key: string, value: string)
      modifies inner
      ensures Snapshot() == AfterSetHeader(old(Snapshot()), key, value)
    {
      inner.SetHeader(key, value);
    }
  }

  /** One call a handler makes on the wrapper. */
  datatype WriterCall = WriteHeaderCall(code: int) | WriteCall(b: string) | SetHeaderCall(key: string, value: string)

  function Apply(r: Recorded, call: WriterCall): Recorded {
    match call
    case WriteHeaderCall(code) => AfterWriteHeader(r, code)
    case WriteCall(b) => AfterWrite(r, b)
    case SetHeaderCall(key, value) => AfterSetHeader(r, key, value)
  }

  /** The state after a sequence of calls, in order. */
  function Replay(r: Recorded, calls: seq<WriterCall>): Recorded
    decreases |calls|
  {
    if calls == [] then r else Replay(Apply(r, calls[0]), calls[1..])
  }

  predicate NoWriteHeader(calls: seq<WriterCall>) {
    forall j :: 0 <= j < |calls| ==> !calls[j].WriteHeaderCall?
  }

  predicate SomeWrite(calls: seq<WriterCall>) {
    exists j :: 0 <= j < |calls| && calls[j].WriteCall?
  }

  /** The bytes of the `Write` calls, concatenated in order. */
  function Written(calls: seq<WriterCall>): string
    decreases |calls|
  {
    if calls == [] then []
    else (if calls[0].WriteCall? then calls[0].b else []) + Written(calls[1..])
  }

  /** The codes of the `WriteHeader` calls, in order. */
  function HeaderCodes(calls: seq<WriterCall>): seq<int>
    decreases |calls|
  {
    if calls == [] then []
    else (if calls[0].WriteHeaderCall? then [calls[0].code] else []) + HeaderCodes(calls[1..])
  }

  lemma {:induction false} ReplayAppend(r: Recorded, a: seq<WriterCall>, b: seq<WriterCall>)
    ensures Replay(r, a + b) == Replay(Replay(r, a), b)
    decreases |a|
  {
    if a != [] {
      assert (a + b)[0] == a[0] && (a + b)[1..] == a[1..] + b;
      ReplayAppend(Apply(r, a[0]), a[1..], b);
    } else {
      assert a + b == b;
    }
  }

  /**
   * The wrapped writer receives every byte and every code unchanged and in
   * order: its body grows by exactly the written bytes.
   */
  lemma {:induction false} ReplayForwards(r: Recorded, calls: seq<WriterCall>)
    ensures Replay(r, calls).body == r.body + Written(calls)
    ensures Replay(r, calls).sentCodes == r.sentCodes + HeaderCodes(calls)
    decreases |calls|
  {
    if calls != [] {
      ReplayForwards(Apply(r, calls[0]), calls[1..]);
    }
  }

  /** Once a non-zero status is recorded, writes never overwrite it. */
  lemma {:induction false} WritesKeepStatus(r: Recorded, calls: seq<WriterCall>)
    requires r.statusCode != 0
    requires NoWriteHeader(calls)
    ensures Replay(r, calls).statusCode == r.statusCode
    decreases |calls|
  {
    if calls != [] {
      assert !calls[0].WriteHeaderCall?;
      WritesKeepStatus(Apply(r, calls[0]), calls[1..]);
    }
  }

  /**
   * Without any `WriteHeader` the recorded status is 200 if something was
   * written and 0 otherwise.
   */
  lemma {:induction false} ImplicitStatus(r: Recorded, calls: seq<WriterCall>)
    requires r.statusCode == 0
    requires NoWriteHeader(calls)
    ensures Replay(r, calls).statusCode == (if SomeWrite(calls) then StatusOK else 0)
    decreases |calls|
  {
    if calls != [] {
      var r' := Apply(r, calls[0]);
      assert !calls[0].WriteHeaderCall?;
      assert NoWriteHeader(calls[1..]);
      if calls[0].WriteCall? {
        WritesKeepStatus(r', calls[1..]);
      } else {
        ImplicitStatus(r', calls[1..]);
        assert SomeWrite(calls) <==> SomeWrite(calls[1..]) by {
          if SomeWrite(calls) {
            var j :| 0 <= j < |calls| && calls[j].WriteCall?;
            assert j != 0 && calls[1..][j - 1] == calls[j];
          }
          if SomeWrite(calls[1..]) {
            var j :| 0 <= j < |calls[1..]| && calls[1..][j].WriteCall?;
            assert calls[j + 1] == calls[1..][j];
          }
        }
      }
    }
  }

  /**
   * The recorded status is that of the last `WriteHeader` call when its code
   * is non-zero, whatever follows: a later `Write` never replaces it.
   */
  lemma LastWriteHeaderWins(calls: seq<WriterCall>, k: nat)
    requires k < |calls| && calls[k].WriteHeaderCall? && calls[k].code != 0
    requires NoWriteHeader(calls[k + 1..])
    ensures Replay(Untouched, calls).statusCode == calls[k].code
  {
    assert calls == calls[..k + 1] + calls[k + 1..];
    ReplayAppend(Untouched, calls[..k + 1], calls[k + 1..]);
    assert calls[..k + 1] == calls[..k] + [calls[k]];
    ReplayAppend(Untouched, calls[..k], [calls[k]]);
    WritesKeepStatus(Replay(Untouched, calls[..k + 1]), calls[k + 1..]);
  }
}

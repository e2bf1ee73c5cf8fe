/**
 * The HTTP response side of the handlers: a `ResponseWriter` whose calls are
 * recorded in order, `sendError` and `sendOK`, the bodies they write, and
 * what a client sees once net/http has committed the status and headers at
 * the first write.
 */
module Responses {
  import opened Wrappers
  import opened Text
  import opened Json

  datatype WriterEvent =
    | HeaderSet(key: string, value: string)
    | StatusWritten(code: int)
    | BytesWritten(data: Bytes)
    | Flushed

  /** What `Write` returns for a buffer: the count written and the error. */
  datatype WriteReply = WriteReply(count: nat, err: Option<string>)

  /**
   * An `http.ResponseWriter`. Whether it implements `http.Flusher`, and what
   * each `Write` returns, are fixed when the request arrives.
   */
  class ResponseWriter {
    const canFlush: bool
    const reply: Bytes -> WriteReply
    var events: seq<WriterEvent>

    constructor (canFlush: bool, reply: Bytes -> WriteReply)
      ensures this.canFlush == canFlush && this.reply == reply && events == []
    {
      this.canFlush := canFlush;
      this.reply := reply;
      events := [];
    }

    /** `w.Header().Set(key, value)`. */
    method SetHeader(key: string, value: string)
      modifies this
      ensures events == old(events) + [HeaderSet(key, value)]
    {
      events := events + [HeaderSet(key, value)];
    }

    method WriteHeader(code: int)
      modifies this
      ensures events == old(events) + [StatusWritten(code)]
    {
      events := events + [StatusWritten(code)];
    }

    method Write(data: Bytes) returns (n: nat, err: Option<string>)
      modifies this
      ensures events == old(events) + [BytesWritten(data)]
      ensures n == reply(data).count && err == reply(data).err
    {
      events := events + [BytesWritten(data)];
      n, err := reply(data).count, reply(data).err;
    }

    method Flush()
      requires canFlush
      modifies this
      ensures events == old(events) + [Flushed]
    {
      events := events + [Flushed];
    }
  }

  const ContentType := "Content-Type"
  const ContentLength := "Content-Length"
  const ApplicationJson := "application/json"

  /** `json.Marshal(ErrResponse{Error: cause})`. */
  function ErrorBody(cause: string): string {
    "{\"error\":" + Quote(cause) + "}"
  }

  const ErrorPrefix := "{\"error\":"

  /** Reads the cause back out of an error body. */
  function ParseErrorBody(b: string): Option<string> {
    if |b| < |ErrorPrefix| || b[..|ErrorPrefix|] != ErrorPrefix then None
    else match Unquote(b[|ErrorPrefix|..])
      case Some((cause, "}")) => Some(cause)
      case _ => None
  }

  /** The error body determines the cause. */
  lemma ErrorBodyRoundTrip(cause: string)
    ensures ParseErrorBody(ErrorBody(cause)) == Some(cause)
  {
    var b := ErrorBody(cause);
    assert b[..|ErrorPrefix|] == ErrorPrefix;
    assert b[|ErrorPrefix|..] == Quote(cause) + "}";
    QuoteRoundTrip(cause, "}");
  }

  /** The calls `sendError` makes. */
  function ErrorEvents(code: int, cause: string): seq<WriterEvent> {
    [HeaderSet(ContentType, ApplicationJson), StatusWritten(code), BytesWritten(ErrorBody(cause)), BytesWritten("\n")]
  }

  /** The calls of `sendError` determine its status and its cause, and differ from a JSON payload sent whole. */
  lemma ErrorEventsInjective(code: int, cause: string, code2: int, cause2: string, data: Bytes, canFlush: bool)
    ensures ErrorEvents(code, cause) == ErrorEvents(code2, cause2) ==> code == code2 && cause == cause2
    ensures ErrorEvents(code, cause) != JsonEvents(data, canFlush)
  {
    if ErrorEvents(code, cause) == ErrorEvents(code2, cause2) {
      assert ErrorEvents(code, cause)[1] == ErrorEvents(code2, cause2)[1];
      assert ErrorEvents(code, cause)[2] == ErrorEvents(code2, cause2)[2];
      ErrorBodyRoundTrip(cause);
      ErrorBodyRoundTrip(cause2);
    }
    assert ErrorEvents(code, cause)[1] != JsonEvents(data, canFlush)[1];
  }

  const OkBody := "{\"ok\":true}\n"

  /**
   * A JSON payload sent whole: the content type, a `Content-Length` of the
   * payload's size, the payload, and a flush when the writer can flush.
   */
  function JsonEvents(data: Bytes, canFlush: bool): seq<WriterEvent> {
    [HeaderSet(ContentType, ApplicationJson), HeaderSet(ContentLength, Decimal(|data|)), BytesWritten(data)]
      + (if canFlush then [Flushed] else [])
  }

  /** The calls `sendOK` makes. */
  function OkEvents(canFlush: bool): seq<WriterEvent> {
    JsonEvents(OkBody, canFlush)
  }

  method SendError(w: ResponseWriter, code: int, cause: string)
    modifies w
    ensures w.events == old(w.events) + ErrorEvents(code, cause)
  {
    w.SetHeader(ContentType, ApplicationJson);
    w.WriteHeader(code);
    var _, _ := w.Write(ErrorBody(cause));
    var _, _ := w.Write("\n");
  }

  method SendOK(w: ResponseWriter)
    modifies w
    ensures w.events == old(w.events) + OkEvents(w.canFlush)
  {
    w.SetHeader(ContentType, ApplicationJson);
    w.SetHeader(ContentLength, Decimal(|OkBody|));
    var _, _ := w.Write(OkBody);
    if w.canFlush {
      w.Flush();
    }
  }

  /**
   * What the client receives. Status and headers are sent at the first
   * `WriteHeader`, `Write` or `Flush`; later header changes and status codes
   * do not reach it, and the status is 200 if none was written before. A
   * `Content-Length` set before that point becomes the declared length:
   * net/http counts every byte handed to `Write`, and refuses a whole write
   * that would take the count past the declared length.
   */
  datatype Seen = Seen(status: int, headers: map<string, string>, body: Bytes, committed: bool,
                       declared: Option<nat>, counted: nat)

  const Fresh := Seen(200, map[], "", false, None, 0)

  /** The declared length of a set of headers: `Content-Length` when it is a decimal. */
  function Declared(headers: map<string, string>): Option<nat> {
    if ContentLength in headers then ParseDecimal(headers[ContentLength]) else None
  }

  /** Sending the status and headers, with `code` when nothing was sent yet. */
  function Commit(o: Seen, code: int): Seen {
    if o.committed then o else o.(status := code, committed := true, declared := Declared(o.headers))
  }

  function Apply(o: Seen, e: WriterEvent): Seen {
    match e
    case HeaderSet(k, v) => if o.committed then o else o.(headers := o.headers[k := v])
    case StatusWritten(c) => Commit(o, c)
    case BytesWritten(d) =>
      var c := Commit(o, 200);
      var counted := c.counted + |d|;
      if c.declared.Some? && counted > c.declared.value then c.(counted := counted)
      else c.(body := c.body + d, counted := counted)
    case Flushed => Commit(o, 200)
  }

  function Replay(o: Seen, events: seq<WriterEvent>): Seen
    decreases |events|
  {
    if events == [] then o else Replay(Apply(o, events[0]), events[1..])
  }

  function Received(events: seq<WriterEvent>): Seen {
    Replay(Fresh, events)
  }

  lemma {:induction false} ReplayAppend(o: Seen, a: seq<WriterEvent>, b: seq<WriterEvent>)
    ensures Replay(o, a + b) == Replay(Replay(o, a), b)
    decreases |a|
  {
    if a == [] {
      assert a + b == b;
    } else {
      assert (a + b)[0] == a[0];
      assert (a + b)[1..] == a[1..] + b;
      ReplayAppend(Apply(o, a[0]), a[1..], b);
    }
  }

  lemma ReplayThree(o: Seen, a: WriterEvent, b: WriterEvent, c: WriterEvent)
    ensures Replay(o, [a, b, c]) == Apply(Apply(Apply(o, a), b), c)
  {
    var o1, o2 := Apply(o, a), Apply(Apply(o, a), b);
    assert [a, b, c][1..] == [b, c];
    assert Replay(o, [a, b, c]) == Replay(o1, [b, c]);
    assert [b, c][1..] == [c];
    assert Replay(o1, [b, c]) == Replay(o2, [c]);
    assert [c][1..] == [];
    assert Replay(o2, [c]) == Replay(Apply(o2, c), []);
  }

  lemma ReplayFour(o: Seen, a: WriterEvent, b: WriterEvent, c: WriterEvent, d: WriterEvent)
    ensures Replay(o, [a, b, c, d]) == Apply(Replay(o, [a, b, c]), d)
  {
    assert [a, b, c, d] == [a, b, c] + [d];
    ReplayAppend(o, [a, b, c], [d]);
    assert [d][1..] == [];
    assert Replay(Replay(o, [a, b, c]), [d]) == Replay(Apply(Replay(o, [a, b, c]), d), []);
  }

  /** On a fresh response, `sendError` delivers its status, the JSON content type and the error body with a newline. */
  lemma ErrorSeen(code: int, cause: string)
    ensures var r := Received(ErrorEvents(code, cause));
      && r.status == code
      && r.headers == map[ContentType := ApplicationJson]
      && r.body == ErrorBody(cause) + "\n"
      && ParseErrorBody(r.body[..|r.body| - 1]) == Some(cause)
  {
    ErrorAfterStatus(Fresh, code, cause);
    var r := Received(ErrorEvents(code, cause));
    assert r.body == ErrorBody(cause) + "\n";
    assert r.body[..|r.body| - 1] == ErrorBody(cause);
    ErrorBodyRoundTrip(cause);
  }

  lemma ErrorAfterStatus(o: Seen, code: int, cause: string)
    requires !o.committed ==> ContentLength !in o.headers
    requires o.committed ==> o.declared.None?
    ensures var r := Replay(o, ErrorEvents(code, cause));
      && r.status == (if o.committed then o.status else code)
      && r.headers == (if o.committed then o.headers else o.headers[ContentType := ApplicationJson])
      && r.body == o.body + ErrorBody(cause) + "\n"
  {
    var a, b, c, d := HeaderSet(ContentType, ApplicationJson), StatusWritten(code), BytesWritten(ErrorBody(cause)), BytesWritten("\n");
    assert ErrorEvents(code, cause) == [a, b, c, d];
    ReplayFour(o, a, b, c, d);
    ReplayThree(o, a, b, c);
    assert Apply(Apply(o, a), b).declared.None?;
    assert o.body + ErrorBody(cause) + "\n" == (o.body + ErrorBody(cause)) + "\n";
  }

  /**
   * Once the response is committed, the status of `sendError` never reaches
   * the client. Without a declared length its body is appended; once the
   * declared length has been written, net/http refuses the body and the
   * newline, so the client sees nothing more.
   */
  lemma ErrorAfterCommit(o: Seen, code: int, cause: string)
    requires o.committed
    ensures var r := Replay(o, ErrorEvents(code, cause));
      && r.status == o.status && r.headers == o.headers
      && (o.declared.None? ==> r.body == o.body + ErrorBody(cause) + "\n")
      && (o.declared.Some? && o.counted >= o.declared.value ==> r.body == o.body)
  {
    var a, b, c, d := HeaderSet(ContentType, ApplicationJson), StatusWritten(code), BytesWritten(ErrorBody(cause)), BytesWritten("\n");
    assert ErrorEvents(code, cause) == [a, b, c, d];
    ReplayFour(o, a, b, c, d);
    ReplayThree(o, a, b, c);
    if o.declared.None? {
      ErrorAfterStatus(o, code, cause);
    }
  }

  /** A JSON payload sent whole reaches the client with status 200, the JSON content type and a `Content-Length` that is its size. */
  lemma JsonSeen(data: Bytes, canFlush: bool)
    ensures var r := Received(JsonEvents(data, canFlush));
      && r.status == 200
      && r.committed
      && r.body == data
      && ContentType in r.headers && r.headers[ContentType] == ApplicationJson
      && ContentLength in r.headers
      && ParseDecimal(r.headers[ContentLength]) == Some(|r.body|)
      && r.declared == Some(|data|) && r.counted == |data|
  {
    var a, b, c := HeaderSet(ContentType, ApplicationJson), HeaderSet(ContentLength, Decimal(|data|)), BytesWritten(data);
    DecimalRoundTrip(|data|);
    var h := map[ContentType := ApplicationJson, ContentLength := Decimal(|data|)];
    assert Declared(h) == Some(|data|);
    ReplayThree(Fresh, a, b, c);
    var r3 := Seen(200, h, data, true, Some(|data|), |data|);
    assert Replay(Fresh, [a, b, c]) == r3;
    if canFlush {
      assert JsonEvents(data, canFlush) == [a, b, c, Flushed];
      ReplayFour(Fresh, a, b, c, Flushed);
    } else {
      assert JsonEvents(data, canFlush) == [a, b, c];
    }
    assert Received(JsonEvents(data, canFlush)) == r3;
  }

  /** `sendOK` delivers status 200, the body `{"ok":true}` and its length. */
  lemma OkSeen(canFlush: bool)
    ensures var r := Received(OkEvents(canFlush));
      && r.status == 200
      && r.body == OkBody
      && ContentType in r.headers && r.headers[ContentType] == ApplicationJson
      && ContentLength in r.headers
      && ParseDecimal(r.headers[ContentLength]) == Some(|r.body|)
  {
    JsonSeen(OkBody, canFlush);
  }
}

/** The two completion requests, `requestCompletion` and `requestCompletionStream`, on the
    current settings. The network is the input `reply`; the callbacks are recorded as the list of
    events they receive, in order; a thrown exception is the outcome `Threw`. */
module Completion {
  import opened Wrappers
  import opened Text
  import opened Seqs
  import opened AiService
  import opened Sse

  /** The response to a POST, as the request sees it. `Failed`: `fetch` itself threw.
      `Response`: a 2xx answer, with its body as decoded chunks (read by the streaming request)
      and, for the plain request, `json`: the message of the exception `response.json()` throws
      (`Err`), or the parsed body, abstracted to `choices[0].message.content` when the body has a
      first choice (`Ok(Some(content))`) and to `Ok(None)` when it has none. `readError`: the
      exception `reader.read()` rejects with once the streaming request has read `chunks`, if it
      does. */
  datatype Reply =
    | Failed(message: string)
    | HttpError(status: int, statusText: string, errorText: string)
    | Response(chunks: seq<string>, json: Result<Option<string>>, readError: Option<string>)

  /** One HTTP request: URL, headers and body. */
  datatype HttpRequest = HttpRequest(url: string, headers: seq<(string, string)>, body: RequestData)

  /** A callback invocation: `onContent(text)`, `onComplete(text)` or `onError(message)`. */
  datatype Event = Content(text: string) | Complete(text: string) | Error(message: string)

  /** How a call ends: it returns the content, or throws an error with this message. */
  datatype Outcome = Returned(content: string) | Threw(message: string)

  function ValidationMessage(errors: seq<string>): string {
    ValidationPrefix + JoinWith(errors, ", ")
  }

  function HttpErrorMessage(status: int, statusText: string, errorText: string): string {
    "API请求失败: " + IntToString(status) + " " + statusText + " - " + errorText
  }

  /** The request sent for the settings, with `stream` forced to `stream`. */
  function RequestFor(s: Settings, messages: seq<Message>, stream: bool): (r: HttpRequest)
    ensures r.url == ApiEndpoint(s) && r.headers == RequestHeaders(s)
    ensures r.body == BuildRequestData(s, messages).(stream := stream)
  {
    HttpRequest(ApiEndpoint(s), RequestHeaders(s), BuildRequestData(s, messages).(stream := stream))
  }

  function ContentEvents(deltas: seq<string>): (es: seq<Event>)
    ensures |es| == |deltas| && forall k :: 0 <= k < |es| ==> es[k] == Content(deltas[k])
  {
    seq(|deltas|, k requires 0 <= k < |deltas| => Content(deltas[k]))
  }

  /** What `requestCompletion` settles with once the request is sent: `Ok` with the parsed body
      (abstracted as in `Reply`), whether or not it has a first choice, or `Err` with the error
      `fetch`, a non-2xx status or parsing the body throws. */
  function PlainAnswer(reply: Reply): Result<Option<string>> {
    match reply
    case Failed(m) => Err(m)
    case HttpError(st, txt, err) => Err(HttpErrorMessage(st, txt, err))
    case Response(_, json, _) => json
  }

  /** The message of the `TypeError` thrown by reading `choices[0].message` of a body without a
      first choice. Its wording belongs to the JavaScript engine; the model fixes one. */
  const NoChoiceMessage := "Cannot read properties of undefined (reading 'message')"

  /** `requestCompletion(messages)`: validates, then sends one request with `stream: false` and
      returns the parsed body without looking into it. No callback is involved. */
  method RequestCompletion(s: Settings, messages: seq<Message>, reply: Reply)
    returns (request: Option<HttpRequest>, out: Result<Option<string>>)
    ensures request == if !ValidSettings(s) then None else Some(RequestFor(s, messages, false))
    ensures out == if !ValidSettings(s) then Err(ValidationMessage(ValidationErrors(s))) else PlainAnswer(reply)
  {
    var validation := Validate(s);
    if !validation.valid {
      return None, Err(ValidationMessage(validation.errors));
    }
    request := Some(RequestFor(s, messages, false));
    match reply {
      case Failed(m) =>
        out := Err(m);
      case HttpError(st, txt, err) =>
        out := Err(HttpErrorMessage(st, txt, err));
      case Response(_, json, _) =>
        out := json;
    }
  }

  /** The content the non-streaming branch of `requestCompletionStream` reads out of the
      answer: `response.choices[0].message.content`, or the error settling or reading it throws. */
  function PlainCall(reply: Reply): Outcome {
    match PlainAnswer(reply)
    case Err(m) => Threw(m)
    case Ok(None) => Threw(NoChoiceMessage)
    case Ok(Some(c)) => Returned(c)
  }

  /** The plain request resolves whenever the answer is a 2xx body that parses, with or
      without a first choice; reading its content succeeds exactly when there is one, and then
      yields that choice's content. */
  lemma {:induction false} PlainCallSpec(reply: Reply)
    ensures PlainAnswer(reply).Ok? <==> reply.Response? && reply.json.Ok?
    ensures PlainCall(reply).Returned? <==> reply.Response? && reply.json.Ok? && reply.json.value.Some?
    ensures PlainCall(reply).Returned? ==> PlainCall(reply).content == reply.json.value.value
    ensures PlainAnswer(reply) == Ok(None) ==> PlainCall(reply) == Threw(NoChoiceMessage)
    ensures PlainAnswer(reply).Err? ==> PlainCall(reply) == Threw(PlainAnswer(reply).message)
  {
  }

  /** The callback events and the outcome of a call. */
  datatype Call = Call(events: seq<Event>, out: Outcome)

  /** What follows `onComplete(content)`: nothing and a return, or, when the callback throws,
      `onError` with its message and the same exception thrown on. */
  function Completed(before: seq<Event>, content: string, completeThrows: Option<string>): Call {
    match completeThrows
    case Some(m) => Call(before + [Complete(content)] + [Error(m)], Threw(m))
    case None => Call(before + [Complete(content)], Returned(content))
  }

  /** `requestCompletionStream` on valid settings with `streamOutput` off: the plain request,
      then `onContent` and `onComplete` once each with its content. */
  function PlainStreamCall(reply: Reply, completeThrows: Option<string>): Call {
    match PlainCall(reply)
    case Returned(c) => Completed([Content(c)], c, completeThrows)
    case Threw(m) => Call([Error(m)], Threw(m))
  }

  /** `requestCompletionStream` on valid streaming settings. */
  function StreamingCall(reply: Reply, extract: string -> Option<string>, completeThrows: Option<string>): Call {
    match reply
    case Failed(m) => Call([Error(m)], Threw(m))
    case HttpError(st, txt, err) =>
      var msg := HttpErrorMessage(st, txt, err);
      Call([Error(msg), Error(msg)], Threw(msg))
    case Response(chunks, _, readError) =>
      var deltas := StreamDeltas(chunks, extract);
      match readError
      case Some(m) => Call(ContentEvents(deltas) + [Error(m)], Threw(m))
      case None => Completed(ContentEvents(deltas), Concat(deltas), completeThrows)
  }

  /** The events and outcome of `requestCompletionStream`: a failed validation reports its
      message once and throws it; otherwise the plain or the streaming branch. */
  function StreamCall(s: Settings, reply: Reply, extract: string -> Option<string>, completeThrows: Option<string>): Call {
    if !ValidSettings(s) then
      var msg := ValidationMessage(ValidationErrors(s));
      Call([Error(msg)], Threw(msg))
    else if !s.streamOutput then PlainStreamCall(reply, completeThrows)
    else StreamingCall(reply, extract, completeThrows)
  }

  /** `requestCompletionStream(messages, onContent, onComplete, onError)`. `extract` is the
      JSON step of the stream reader; `completeThrows` is the exception the caller's
      `onComplete` throws, if any (the other callbacks return normally). */
  method RequestCompletionStream(
    s: Settings, messages: seq<Message>, reply: Reply,
    extract: string -> Option<string>, completeThrows: Option<string>)
    returns (request: Option<HttpRequest>, events: seq<Event>, out: Outcome)
    ensures request == if !ValidSettings(s) then None else Some(RequestFor(s, messages, s.streamOutput))
    ensures Call(events, out) == StreamCall(s, reply, extract, completeThrows)
  {
    var validation := Validate(s);
    if !validation.valid {
      var errorMsg := ValidationMessage(validation.errors);
      return None, [Error(errorMsg)], Threw(errorMsg);
    }
    if !s.streamOutput {
      request, events, out := PlainStream(s, messages, reply, completeThrows);
    } else {
      request, events, out := Streaming(s, messages, reply, extract, completeThrows);
    }
  }

  /** The non-streaming branch: `requestCompletion`, then the callbacks. */
  method PlainStream(s: Settings, messages: seq<Message>, reply: Reply, completeThrows: Option<string>)
    returns (request: Option<HttpRequest>, events: seq<Event>, out: Outcome)
    requires ValidSettings(s)
    ensures request == Some(RequestFor(s, messages, false))
    ensures Call(events, out) == PlainStreamCall(reply, completeThrows)
  {
    var response;
    request, response := RequestCompletion(s, messages, reply);
    match response {
      case Ok(Some(content)) =>
        events := [Content(content)];
        events := events + [Complete(content)];
        if completeThrows.Some? {
          events := events + [Error(completeThrows.value)];
          out := Threw(completeThrows.value);
        } else {
          out := Returned(content);
        }
      case Ok(None) =>
        events := [Error(NoChoiceMessage)];
        out := Threw(NoChoiceMessage);
      case Err(m) =>
        events := [Error(m)];
        out := Threw(m);
    }
  }

  /** The streaming branch: one request with `stream: true`, then the read loop. */
  method Streaming(s: Settings, messages: seq<Message>, reply: Reply,
    extract: string -> Option<string>, completeThrows: Option<string>)
    returns (request: Option<HttpRequest>, events: seq<Event>, out: Outcome)
    ensures request == Some(RequestFor(s, messages, true))
    ensures Call(events, out) == StreamingCall(reply, extract, completeThrows)
  {
    request := Some(RequestFor(s, messages, true));
    events, out := ReadReply(reply, extract, completeThrows);
  }

  /** The answer to the streaming request: an error reported (twice for a non-2xx status, once
      by the status check and once by the enclosing `catch`), or the read loop and then
      `onComplete`, or, when a read rejects, the deltas read so far and the error. */
  method ReadReply(reply: Reply, extract: string -> Option<string>, completeThrows: Option<string>)
    returns (events: seq<Event>, out: Outcome)
    ensures Call(events, out) == StreamingCall(reply, extract, completeThrows)
  {
    match reply {
      case Failed(m) =>
        events := [Error(m)];
        out := Threw(m);
      case HttpError(st, txt, err) =>
        var errorMsg := HttpErrorMessage(st, txt, err);
        events := [Error(errorMsg)];
        events := events + [Error(errorMsg)];
        out := Threw(errorMsg);
      case Response(chunks, _, readError) =>
        var deltas, completeContent := ReadStream(chunks, extract);
        events := ContentEvents(deltas);
        if readError.Some? {
          events := events + [Error(readError.value)];
          out := Threw(readError.value);
          return;
        }
        events := events + [Complete(completeContent)];
        if completeThrows.Some? {
          events := events + [Error(completeThrows.value)];
          out := Threw(completeThrows.value);
        } else {
          out := Returned(completeContent);
        }
    }
  }

  /** The texts of the `onContent` calls, in order. */
  function ContentTexts(events: seq<Event>): seq<string>
    decreases |events|
  {
    if |events| == 0 then []
    else ContentTexts(events[..|events| - 1]) + (if events[|events| - 1].Content? then [events[|events| - 1].text] else [])
  }

  lemma {:induction false} ContentTextsOfDeltas(deltas: seq<string>)
    ensures ContentTexts(ContentEvents(deltas)) == deltas
    decreases |deltas|
  {
    if |deltas| > 0 {
      var d' := deltas[..|deltas| - 1];
      assert ContentEvents(deltas)[..|deltas| - 1] == ContentEvents(d');
      ContentTextsOfDeltas(d');
    }
  }

  /** A successful streaming call reports every delta through `onContent`, then completes
      exactly once, with the concatenation of what it reported, and returns that content; a
      non-2xx answer reports its error twice. */
  lemma {:induction false} StreamingCallSpec(reply: Reply, extract: string -> Option<string>)
    ensures reply.Response? && reply.readError.None? ==>
      var c := StreamingCall(reply, extract, None);
      && |c.events| >= 1 && c.events[|c.events| - 1] == Complete(Concat(ContentTexts(c.events[..|c.events| - 1])))
      && ContentTexts(c.events[..|c.events| - 1]) == StreamDeltas(reply.chunks, extract)
      && (forall k :: 0 <= k < |c.events| - 1 ==> c.events[k].Content?)
      && c.out == Returned(c.events[|c.events| - 1].text)
    ensures reply.HttpError? ==>
      var c := StreamingCall(reply, extract, None);
      |c.events| == 2 && c.events[0] == c.events[1] == Error(c.out.message) && c.out.Threw?
  {
    if reply.Response? && reply.readError.None? {
      var deltas := StreamDeltas(reply.chunks, extract);
      var events := ContentEvents(deltas) + [Complete(Concat(deltas))];
      assert StreamingCall(reply, extract, None).events == events;
      assert events[..|events| - 1] == ContentEvents(deltas);
      ContentTextsOfDeltas(deltas);
    }
  }

  /** A read that rejects after some chunks: every delta read so far has been reported through
      `onContent`, then the error once through `onError`, which is also thrown. `onComplete` is
      never called, whatever it would do. */
  lemma {:induction false} ReadFailureSpec(reply: Reply, extract: string -> Option<string>, completeThrows: Option<string>)
    requires reply.Response? && reply.readError.Some?
    ensures var c := StreamingCall(reply, extract, completeThrows);
      && |c.events| >= 1 && c.events[|c.events| - 1] == Error(reply.readError.value)
      && ContentTexts(c.events[..|c.events| - 1]) == StreamDeltas(reply.chunks, extract)
      && (forall k :: 0 <= k < |c.events| - 1 ==> c.events[k].Content?)
      && c.out == Threw(reply.readError.value)
  {
    var deltas := StreamDeltas(reply.chunks, extract);
    var events := ContentEvents(deltas) + [Error(reply.readError.value)];
    assert StreamingCall(reply, extract, completeThrows).events == events;
    assert events[..|events| - 1] == ContentEvents(deltas);
    ContentTextsOfDeltas(deltas);
  }

  const ValidationPrefix := "设置验证失败: "

  /** What every completion call guarantees its caller: invalid settings are reported once and
      thrown; a throwing `onComplete` makes the call throw; a call that returns has reported
      only content and then completed once, last, with what it returns; with streaming off that
      content was reported in one piece. */
  predicate CallShape(c: Call, s: Settings, completeThrows: Option<string>) {
    && (!ValidSettings(s) ==>
          c.out.Threw? && c.events == [Error(c.out.message)] && StartsWith(c.out.message, ValidationPrefix))
    && (completeThrows.Some? ==> c.out.Threw?)
    && (c.out.Returned? ==>
          && |c.events| >= 1 && c.events[|c.events| - 1] == Complete(c.out.content)
          && forall k :: 0 <= k < |c.events| - 1 ==> c.events[k].Content?)
    && (c.out.Returned? && ValidSettings(s) && !s.streamOutput ==>
          c.events == [Content(c.out.content), Complete(c.out.content)])
  }

  lemma {:induction false} StreamCallShape(s: Settings, reply: Reply, extract: string -> Option<string>, completeThrows: Option<string>)
    ensures CallShape(StreamCall(s, reply, extract, completeThrows), s, completeThrows)
  {
    StreamCallSpec(s, reply, extract, completeThrows);
  }

  /** Invalid settings give one `onError` with the validation message and a throw; a throwing
      `onComplete` makes every call throw; a call that returns has completed exactly once, last,
      with the content it returns, and with streaming off it has reported that content once. */
  lemma {:induction false} StreamCallSpec(s: Settings, reply: Reply, extract: string -> Option<string>, completeThrows: Option<string>)
    ensures var c := StreamCall(s, reply, extract, completeThrows);
      !ValidSettings(s) ==>
        && c.out.Threw? && c.events == [Error(c.out.message)]
        && StartsWith(c.out.message, ValidationPrefix)
    ensures completeThrows.Some? ==> StreamCall(s, reply, extract, completeThrows).out.Threw?
    ensures var c := StreamCall(s, reply, extract, completeThrows);
      c.out.Returned? ==>
        && |c.events| >= 1 && c.events[|c.events| - 1] == Complete(c.out.content)
        && forall k :: 0 <= k < |c.events| - 1 ==> c.events[k].Content?
    ensures var c := StreamCall(s, reply, extract, completeThrows);
      c.out.Returned? && !s.streamOutput ==> c.events == [Content(c.out.content), Complete(c.out.content)]
  {
    var c := StreamCall(s, reply, extract, completeThrows);
    if !ValidSettings(s) {
      var msg := ValidationMessage(ValidationErrors(s));
      assert msg[..|ValidationPrefix|] == ValidationPrefix;
    } else if c.out.Returned? && s.streamOutput {
      var deltas := StreamDeltas(reply.chunks, extract);
      assert c.events == ContentEvents(deltas) + [Complete(Concat(deltas))];
    }
  }
}

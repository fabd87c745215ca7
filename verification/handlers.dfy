/**
 The handlers a task can hold, what each one hands to the caller's closure,
 and the effect of invoking one: either exactly one work item appended to the
 response queue, or exactly one thrown error.
 */
module Handlers {
  import opened Values

  /** Identity of the caller's closure that a handler captures. */
  datatype Callback = Callback(id: nat)

  /** The value a queued work item passes to the caller's closure. */
  datatype Payload =
    | RawContent(content: Content)
    | Bytes(bytes: seq<bv8>)
    | FileUrl(url: string)
    | Text(text: string)
    | JsonValue(json: Json)
    | Form(fields: map<string, string>)
    | Decodable(decoded: Decoded)

  /** One operation added to the response queue: call `callback(payload, response)`. */
  datatype Delivery = Delivery(callback: Callback, payload: Payload, response: UrlResponse)

  /** The handlers the builders install. The first three are ResponseHandler
      closures; the others are the delegate content-handler classes, each
      wrapping the caller's closure. */
  datatype Handler =
    | ContentBlock(callback: Callback)
    | DataBlock(callback: Callback)
    | FileBlock(callback: Callback)
    | TextContentHandler(callback: Callback)
    | JsonContentHandler(callback: Callback)
    | UrlEncodedContentHandler(callback: Callback)
    | DecodableContentHandler(typeName: string, callback: Callback)
  {
    /** True of the handlers that delegate decoding to another class. */
    predicate Delegates()
    {
      TextContentHandler? || JsonContentHandler? || UrlEncodedContentHandler? || DecodableContentHandler?
    }
  }

  /** The decoders the delegate handler classes apply before calling their
      closure. The Decodable decoder is asked for the fields of a value of the
      named type; the value handed on is always of that type, as Swift's
      generic `T` guarantees. Their internals are not part of this model, so they are
      parameters: every property below holds whatever values they compute.
      Each delegate class is taken to call its closure once with the decoded
      value and the response it received, and never to both call it and throw. */
  datatype Decoders = Decoders(
    text: (Content, UrlResponse) -> Result<string>,
    json: (Content, UrlResponse) -> Result<Json>,
    urlEncoded: (Content, UrlResponse) -> Result<map<string, string>>,
    decodable: (string, Content, UrlResponse) -> Result<Json>)

  /** The response queue after an invocation, and the error it threw, if any. */
  datatype Outcome = Outcome(queue: seq<Delivery>, thrown: Option<Error>)

  /** The payload shape the caller's closure of handler `h` is typed for. */
  predicate Fits(h: Handler, p: Payload)
  {
    match h
    case ContentBlock(_) => p.RawContent?
    case DataBlock(_) => p.Bytes?
    case FileBlock(_) => p.FileUrl?
    case TextContentHandler(_) => p.Text?
    case JsonContentHandler(_) => p.JsonValue?
    case UrlEncodedContentHandler(_) => p.Form?
    case DecodableContentHandler(typeName, _) => p.Decodable? && p.decoded.typeName == typeName
  }

  /** Exactly one of: one work item for `callback` carrying `response` appended
      behind everything already queued and nothing thrown; or one error thrown
      and the queue untouched. */
  predicate OneEffect(before: seq<Delivery>, o: Outcome, callback: Callback, response: UrlResponse)
  {
    || (&& o.thrown.None?
        && |o.queue| == |before| + 1
        && o.queue[..|before|] == before
        && o.queue[|before|].callback == callback
        && o.queue[|before|].response == response)
    || (o.thrown.Some? && o.queue == before)
  }

  /** The content a raw payload was taken from; decoded payloads have none. */
  function ContentOf(p: Payload): Option<Content>
  {
    match p
    case RawContent(c) => Some(c)
    case Bytes(b) => Some(Data(b))
    case FileUrl(u) => Some(File(u))
    case _ => None
  }

  /** What handler `h` would hand to its closure for `content`, or the error it throws. */
  function Decode(h: Handler, content: Content, response: UrlResponse, dec: Decoders): (d: Result<Payload>)
    ensures d.Ok? ==> Fits(h, d.value)
  {
    match h
    case ContentBlock(_) => Ok(RawContent(content))
    case DataBlock(_) =>
      (match content
       case Data(data) => Ok(Bytes(data))
       case _ => Err(InvalidResponse))
    case FileBlock(_) =>
      (match content
       case File(url) => Ok(FileUrl(url))
       case _ => Err(InvalidResponse))
    case TextContentHandler(_) => dec.text(content, response).Map(s => Text(s))
    case JsonContentHandler(_) => dec.json(content, response).Map(j => JsonValue(j))
    case UrlEncodedContentHandler(_) => dec.urlEncoded(content, response).Map(m => Form(m))
    case DecodableContentHandler(typeName, _) =>
      dec.decodable(typeName, content, response).Map(fields => Decodable(Decoded(typeName, fields)))
  }

  /** Invokes handler `h` on a received response: on success the closure call is
      deferred by appending one work item to `queue`; otherwise the error is thrown. */
  function Handle(h: Handler, content: Content, response: UrlResponse, dec: Decoders, queue: seq<Delivery>)
    : (o: Outcome)
    ensures OneEffect(queue, o, h.callback, response)
    ensures o.thrown.None? ==> Fits(h, o.queue[|queue|].payload)
  {
    match Decode(h, content, response, dec)
    case Ok(p) => Outcome(queue + [Delivery(h.callback, p, response)], None)
    case Err(e) => Outcome(queue, Some(e))
  }

  /** The content handler accepts every variant and queues it unchanged. */
  lemma ContentHandlerNeverFails(
    callback: Callback, content: Content, response: UrlResponse, dec: Decoders, queue: seq<Delivery>)
    ensures Handle(ContentBlock(callback), content, response, dec, queue)
         == Outcome(queue + [Delivery(callback, RawContent(content), response)], None)
  {
  }

  /** The data handler succeeds exactly on `.data`, queueing its bytes unchanged;
      a file is rejected with invalidResponse and nothing is queued. */
  lemma DataHandlerAcceptsOnlyData(
    callback: Callback, content: Content, response: UrlResponse, dec: Decoders, queue: seq<Delivery>)
    ensures var o := Handle(DataBlock(callback), content, response, dec, queue);
      && (o.thrown.None? <==> content.Data?)
      && (content.Data? ==> o.queue == queue + [Delivery(callback, Bytes(content.bytes), response)])
      && (!content.Data? ==> o == Outcome(queue, Some(InvalidResponse)))
  {
  }

  /** The file handler succeeds exactly on `.file`, queueing its URL unchanged;
      in-memory data is rejected with invalidResponse and nothing is queued. */
  lemma FileHandlerAcceptsOnlyFile(
    callback: Callback, content: Content, response: UrlResponse, dec: Decoders, queue: seq<Delivery>)
    ensures var o := Handle(FileBlock(callback), content, response, dec, queue);
      && (o.thrown.None? <==> content.File?)
      && (content.File? ==> o.queue == queue + [Delivery(callback, FileUrl(content.url), response)])
      && (!content.File? ==> o == Outcome(queue, Some(InvalidResponse)))
  {
  }

  /** A raw handler's delivery gives back the very content it was invoked with. */
  lemma RawDeliveryKeepsContent(
    h: Handler, content: Content, response: UrlResponse, dec: Decoders, queue: seq<Delivery>)
    requires !h.Delegates()
    ensures var o := Handle(h, content, response, dec, queue);
      o.thrown.None? ==> ContentOf(o.queue[|queue|].payload) == Some(content)
  {
  }

  /** The text wrapper queues the decoded string unchanged, or rethrows the decoder's error. */
  lemma TextHandlerForwards(
    callback: Callback, content: Content, response: UrlResponse, dec: Decoders, queue: seq<Delivery>)
    ensures var o := Handle(TextContentHandler(callback), content, response, dec, queue);
      var inner := dec.text(content, response);
      && (o.thrown.None? <==> inner.Ok?)
      && (inner.Ok? ==> o.queue == queue + [Delivery(callback, Text(inner.value), response)])
      && (inner.Err? ==> o == Outcome(queue, Some(inner.error)))
  {
  }

  /** The JSON wrapper queues the parsed object unchanged, or rethrows the decoder's error. */
  lemma JsonHandlerForwards(
    callback: Callback, content: Content, response: UrlResponse, dec: Decoders, queue: seq<Delivery>)
    ensures var o := Handle(JsonContentHandler(callback), content, response, dec, queue);
      var inner := dec.json(content, response);
      && (o.thrown.None? <==> inner.Ok?)
      && (inner.Ok? ==> o.queue == queue + [Delivery(callback, JsonValue(inner.value), response)])
      && (inner.Err? ==> o == Outcome(queue, Some(inner.error)))
  {
  }

  /** The url-encoded wrapper queues the decoded dictionary unchanged, or rethrows the decoder's error. */
  lemma UrlEncodedHandlerForwards(
    callback: Callback, content: Content, response: UrlResponse, dec: Decoders, queue: seq<Delivery>)
    ensures var o := Handle(UrlEncodedContentHandler(callback), content, response, dec, queue);
      var inner := dec.urlEncoded(content, response);
      && (o.thrown.None? <==> inner.Ok?)
      && (inner.Ok? ==> o.queue == queue + [Delivery(callback, Form(inner.value), response)])
      && (inner.Err? ==> o == Outcome(queue, Some(inner.error)))
  {
  }

  /** The Decodable wrapper queues the decoded object of the requested type
      unchanged, or rethrows the decoder's error. */
  lemma DecodableHandlerForwards(
    typeName: string, callback: Callback, content: Content, response: UrlResponse, dec: Decoders,
    queue: seq<Delivery>)
    ensures var o := Handle(DecodableContentHandler(typeName, callback), content, response, dec, queue);
      var inner := dec.decodable(typeName, content, response);
      && (o.thrown.None? <==> inner.Ok?)
      && (inner.Ok? ==>
            o.queue == queue + [Delivery(callback, Decodable(Decoded(typeName, inner.value)), response)])
      && (inner.Err? ==> o == Outcome(queue, Some(inner.error)))
  {
  }

  /** The decoders reject a downloaded file with invalidResponse, as the
      builders' documentation promises. */
  ghost predicate RejectsFiles(dec: Decoders)
  {
    && (forall url, response :: dec.text(File(url), response) == Err(InvalidResponse))
    && (forall url, response :: dec.json(File(url), response) == Err(InvalidResponse))
    && (forall url, response :: dec.urlEncoded(File(url), response) == Err(InvalidResponse))
    && (forall typeName, url, response ::
          dec.decodable(typeName, File(url), response) == Err(InvalidResponse))
  }

  /** With such decoders, every delegating handler fails a file response with
      invalidResponse and queues nothing. */
  lemma DelegatingHandlersRejectFiles(
    h: Handler, url: string, response: UrlResponse, dec: Decoders, queue: seq<Delivery>)
    requires RejectsFiles(dec)
    requires h.Delegates()
    ensures Handle(h, File(url), response, dec, queue) == Outcome(queue, Some(InvalidResponse))
  {
  }
}

/**
 The builder surface of a service task: `response(_:)`, its labelled
 overloads and the named builders. Each one replaces the task's single
 response handler and returns the task; invoking the installed handler
 appends to the task's response queue or throws.
 */
module ServiceTaskResponse {
  import V = Values
  import H = Handlers

  /** The part of a service task this file reads and writes: its one handler
      slot and the operations waiting on its response queue. The task is a
      value here; where the source mutates the object and returns `self`, a
      builder returns the updated record. */
  datatype ServiceTask = ServiceTask(responseHandler: V.Option<H.Handler>, responseQueue: seq<H.Delivery>)

  /** The task after its installed handler was invoked, and what the handler threw. */
  datatype Reaction = Reaction(task: ServiceTask, thrown: V.Option<V.Error>)

  // response(_:) and the labelled overloads

  /** Sets the handler to exactly `handler` and returns the task otherwise unchanged. */
  function Response(t: ServiceTask, handler: H.Handler): (r: ServiceTask)
    ensures r.responseHandler == V.Some(handler)
    ensures r.responseQueue == t.responseQueue
  {
    t.(responseHandler := V.Some(handler))
  }

  function ResponseContent(t: ServiceTask, handler: H.Callback): (r: ServiceTask)
    ensures r.responseHandler == V.Some(H.ContentBlock(handler))
    ensures r.responseQueue == t.responseQueue
  {
    Content(t, handler)
  }

  function ResponseData(t: ServiceTask, handler: H.Callback): (r: ServiceTask)
    ensures r.responseHandler == V.Some(H.DataBlock(handler))
    ensures r.responseQueue == t.responseQueue
  {
    Data(t, handler)
  }

  function ResponseFile(t: ServiceTask, handler: H.Callback): (r: ServiceTask)
    ensures r.responseHandler == V.Some(H.FileBlock(handler))
    ensures r.responseQueue == t.responseQueue
  {
    File(t, handler)
  }

  function ResponseText(t: ServiceTask, handler: H.Callback): (r: ServiceTask)
    ensures r.responseHandler == V.Some(H.TextContentHandler(handler))
    ensures r.responseQueue == t.responseQueue
  {
    Text(t, handler)
  }

  function ResponseJson(t: ServiceTask, handler: H.Callback): (r: ServiceTask)
    ensures r.responseHandler == V.Some(H.JsonContentHandler(handler))
    ensures r.responseQueue == t.responseQueue
  {
    Json(t, handler)
  }

  function ResponseUrlEncoded(t: ServiceTask, handler: H.Callback): (r: ServiceTask)
    ensures r.responseHandler == V.Some(H.UrlEncodedContentHandler(handler))
    ensures r.responseQueue == t.responseQueue
  {
    UrlEncoded(t, handler)
  }

  /** `typeName` names the Decodable type `T` the caller's closure expects. */
  function ResponseCodable(t: ServiceTask, typeName: string, handler: H.Callback): (r: ServiceTask)
    ensures r.responseHandler == V.Some(H.DecodableContentHandler(typeName, handler))
    ensures r.responseQueue == t.responseQueue
  {
    Codable(t, typeName, handler)
  }

  // Named builders. They share names with content variants and payloads
  // (`Values.Data`, `Handlers.Text`, ...), which this module only refers to qualified.

  function Content(t: ServiceTask, handler: H.Callback): (r: ServiceTask)
    ensures r.responseHandler == V.Some(H.ContentBlock(handler))
    ensures r.responseQueue == t.responseQueue
  {
    t.(responseHandler := V.Some(H.ContentBlock(handler)))
  }

  function Data(t: ServiceTask, handler: H.Callback): (r: ServiceTask)
    ensures r.responseHandler == V.Some(H.DataBlock(handler))
    ensures r.responseQueue == t.responseQueue
  {
    t.(responseHandler := V.Some(H.DataBlock(handler)))
  }

  function File(t: ServiceTask, handler: H.Callback): (r: ServiceTask)
    ensures r.responseHandler == V.Some(H.FileBlock(handler))
    ensures r.responseQueue == t.responseQueue
  {
    t.(responseHandler := V.Some(H.FileBlock(handler)))
  }

  function Text(t: ServiceTask, handler: H.Callback): (r: ServiceTask)
    ensures r.responseHandler == V.Some(H.TextContentHandler(handler))
    ensures r.responseQueue == t.responseQueue
  {
    t.(responseHandler := V.Some(H.TextContentHandler(handler)))
  }

  function Json(t: ServiceTask, handler: H.Callback): (r: ServiceTask)
    ensures r.responseHandler == V.Some(H.JsonContentHandler(handler))
    ensures r.responseQueue == t.responseQueue
  {
    t.(responseHandler := V.Some(H.JsonContentHandler(handler)))
  }

  function UrlEncoded(t: ServiceTask, handler: H.Callback): (r: ServiceTask)
    ensures r.responseHandler == V.Some(H.UrlEncodedContentHandler(handler))
    ensures r.responseQueue == t.responseQueue
  {
    t.(responseHandler := V.Some(H.UrlEncodedContentHandler(handler)))
  }

  function Codable(t: ServiceTask, typeName: string, handler: H.Callback): (r: ServiceTask)
    ensures r.responseHandler == V.Some(H.DecodableContentHandler(typeName, handler))
    ensures r.responseQueue == t.responseQueue
  {
    t.(responseHandler := V.Some(H.DecodableContentHandler(typeName, handler)))
  }

  /** Every labelled overload is the named builder it forwards to, so the two
      install the same handler and behave identically on every response. */
  lemma OverloadsMatchNamedBuilders(t: ServiceTask, typeName: string, handler: H.Callback)
    ensures ResponseContent(t, handler) == Content(t, handler)
    ensures ResponseData(t, handler) == Data(t, handler)
    ensures ResponseFile(t, handler) == File(t, handler)
    ensures ResponseText(t, handler) == Text(t, handler)
    ensures ResponseJson(t, handler) == Json(t, handler)
    ensures ResponseUrlEncoded(t, handler) == UrlEncoded(t, handler)
    ensures ResponseCodable(t, typeName, handler) == Codable(t, typeName, handler)
  {
  }

  /** Every named builder is `response(_:)` with one particular handler, so any
      chain of builder calls is a chain of `response(_:)` calls. */
  lemma NamedBuildersAreResponse(t: ServiceTask, typeName: string, handler: H.Callback)
    ensures Content(t, handler) == Response(t, H.ContentBlock(handler))
    ensures Data(t, handler) == Response(t, H.DataBlock(handler))
    ensures File(t, handler) == Response(t, H.FileBlock(handler))
    ensures Text(t, handler) == Response(t, H.TextContentHandler(handler))
    ensures Json(t, handler) == Response(t, H.JsonContentHandler(handler))
    ensures UrlEncoded(t, handler) == Response(t, H.UrlEncodedContentHandler(handler))
    ensures Codable(t, typeName, handler) == Response(t, H.DecodableContentHandler(typeName, handler))
  {
  }

  /** The task after the builder calls installing `handlers`, in order. Only the
      last call counts: nothing accumulates and the queue is never touched. */
  function Chain(t: ServiceTask, handlers: seq<H.Handler>): (r: ServiceTask)
    ensures handlers == [] ==> r == t
    ensures handlers != [] ==> r == ServiceTask(V.Some(handlers[|handlers| - 1]), t.responseQueue)
    decreases |handlers|
  {
    if handlers == [] then t else Chain(Response(t, handlers[0]), handlers[1..])
  }

  /** Two chains that end with the same builder call leave the same task behind. */
  lemma SameLastCallSameTask(t: ServiceTask, first: seq<H.Handler>, second: seq<H.Handler>)
    requires first != [] && second != []
    requires first[|first| - 1] == second[|second| - 1]
    ensures Chain(t, first) == Chain(t, second)
  {
  }

  /** A response reaches the installed handler: the handler slot is kept, and
      exactly one of {one operation queued for its closure, one error thrown} happens. */
  function Respond(t: ServiceTask, content: V.Content, response: V.UrlResponse, dec: H.Decoders)
    : (out: Reaction)
    requires t.responseHandler.Some?
    ensures out.task.responseHandler == t.responseHandler
    ensures H.OneEffect(t.responseQueue, H.Outcome(out.task.responseQueue, out.thrown),
                        t.responseHandler.value.callback, response)
  {
    var o := H.Handle(t.responseHandler.value, content, response, dec, t.responseQueue);
    Reaction(t.(responseQueue := o.queue), o.thrown)
  }

  /** After a chain of builder calls, a response can only ever queue work for the
      closure of the last handler installed; the earlier ones never fire. */
  lemma OnlyLastHandlerFires(
    t: ServiceTask, handlers: seq<H.Handler>, content: V.Content, response: V.UrlResponse, dec: H.Decoders)
    requires handlers != []
    ensures var out := Respond(Chain(t, handlers), content, response, dec);
      && out.task.responseQueue[..|t.responseQueue|] == t.responseQueue
      && forall i :: |t.responseQueue| <= i < |out.task.responseQueue| ==>
           out.task.responseQueue[i].callback == handlers[|handlers| - 1].callback
  {
  }
}

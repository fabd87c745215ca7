# Condulet service-task response handlers, modelled in Dafny

This project models how a Condulet `ServiceTask` takes a response handler and
dispatches a received response to it, as implemented in
`Condulet/Core/ServiceTask+Response.swift`.

- A task has one handler slot. `response(_:)`, the seven labelled overloads
  (`response(content:)`, `response(data:)`, …, `response(codable:)`) and the seven
  named builders (`content`, `data`, `file`, `text`, `json`, `urlencoded`,
  `codable`) each overwrite that slot and return the task. The last call wins,
  and nothing accumulates.
- The received content is `.data(bytes)` or `.file(url)`. Each handler behaves as follows:
  - The content handler accepts both variants.
  - The data handler accepts only `.data`.
  - The file handler accepts only `.file`.
  - Either of the last two throws `invalidResponse` on the other variant.
  - The text, JSON, url-encoded and Decodable handlers delegate decoding to classes that are not part of this model. Each one is modelled as forwarding the decoded value once or rethrowing the decoder's error. This assumes how those classes call their closures; see `Handlers.Handle` under Left out.
- A handler that succeeds does not call the caller's closure inline. It adds one operation to the task's response queue. That operation carries the value and the `URLResponse` unchanged.

Files:

- `values.dfy` (module `Values`): the content variants, the response descriptor, the JSON tree, `Result`, `Option` and the error kinds.
- `handlers.dfy` (module `Handlers`): the handler kinds. It has `Decode`, which gives what a handler hands its closure, and `Handle`, which either enqueues or throws. It also holds the per-handler lemmas.
- `service_task_response.dfy` (module `ServiceTaskResponse`): the task record, every builder, `Chain` (a sequence of builder calls) and `Respond` (invoking the installed handler).
- `response_queue.dfy` (module `ResponseQueue`): several completed tasks delivering onto one shared serial queue. `Replay` hands the completions to their handlers one after another. Its contract ties the result to a per-completion reference: each completion's own delivery or error, concatenated in completion order. `ReplaySplit` shows that a run of completions can be cut anywhere.

The delegate decoders enter every operation as a `Decoders` parameter. This is a record of total functions, so each property is proved for whatever values those decoders compute. How the delegate classes call their closures is an assumption, stated under Left out. A closure is represented by its identity (`Callback`). A queued operation is a `Delivery(callback, payload, response)`, which records which closure would run and with which arguments.

## Model

| member | source | states |
|---|---|---|
| `ServiceTaskResponse.Response` | Condulet/Core/ServiceTask+Response.swift:18-21 | the handler slot holds exactly the given handler afterwards; the rest of the task (its queue) is returned unchanged |
| `ServiceTaskResponse.ResponseContent` | Condulet/Core/ServiceTask+Response.swift:25-27 | installs a content handler for the given closure, queue unchanged |
| `ServiceTaskResponse.ResponseData` | Condulet/Core/ServiceTask+Response.swift:31-33 | installs a data handler for the given closure, queue unchanged |
| `ServiceTaskResponse.ResponseFile` | Condulet/Core/ServiceTask+Response.swift:37-39 | installs a file handler for the given closure, queue unchanged |
| `ServiceTaskResponse.ResponseText` | Condulet/Core/ServiceTask+Response.swift:43-45 | installs a text content handler for the given closure, queue unchanged |
| `ServiceTaskResponse.ResponseJson` | Condulet/Core/ServiceTask+Response.swift:49-51 | installs a JSON content handler for the given closure, queue unchanged |
| `ServiceTaskResponse.ResponseUrlEncoded` | Condulet/Core/ServiceTask+Response.swift:55-57 | installs a url-encoded content handler for the given closure, queue unchanged |
| `ServiceTaskResponse.ResponseCodable` | Condulet/Core/ServiceTask+Response.swift:61-63 | installs a Decodable content handler for the requested type and closure, queue unchanged |
| `ServiceTaskResponse.Content` | Condulet/Core/ServiceTask+Response.swift:73-80 | replaces the handler with a content handler for the closure and returns the task, queue unchanged |
| `ServiceTaskResponse.Data` | Condulet/Core/ServiceTask+Response.swift:84-96 | replaces the handler with a data handler for the closure and returns the task, queue unchanged |
| `ServiceTaskResponse.File` | Condulet/Core/ServiceTask+Response.swift:100-112 | replaces the handler with a file handler for the closure and returns the task, queue unchanged |
| `ServiceTaskResponse.Text` | Condulet/Core/ServiceTask+Response.swift:116-123 | replaces the handler with a text content handler for the closure and returns the task, queue unchanged |
| `ServiceTaskResponse.Json` | Condulet/Core/ServiceTask+Response.swift:127-134 | replaces the handler with a JSON content handler for the closure and returns the task, queue unchanged |
| `ServiceTaskResponse.UrlEncoded` | Condulet/Core/ServiceTask+Response.swift:138-145 | replaces the handler with a url-encoded content handler for the closure and returns the task, queue unchanged |
| `ServiceTaskResponse.Codable` | Condulet/Core/ServiceTask+Response.swift:149-156 | replaces the handler with a Decodable content handler for the type and closure and returns the task, queue unchanged |
| `ServiceTaskResponse.OverloadsMatchNamedBuilders` | Condulet/Core/ServiceTask+Response.swift:25-63 | each `response(x:)` overload yields the same task as the named builder `x(_:)`, hence behaves identically on every response |
| `ServiceTaskResponse.NamedBuildersAreResponse` | Condulet/Core/ServiceTask+Response.swift:73-156 | every named builder equals `response(_:)` with one particular handler, so builder chains are chains of handler assignments |
| `ServiceTaskResponse.Chain` | Condulet/Core/ServiceTask+Response.swift:18-21 | after any non-empty sequence of builder calls the slot holds exactly the last handler and the queue is untouched; an empty sequence changes nothing |
| `ServiceTaskResponse.SameLastCallSameTask` | Condulet/Core/ServiceTask+Response.swift:18-21 | two builder chains ending in the same call leave identical tasks: earlier calls have no lasting effect |
| `ServiceTaskResponse.Respond` | Condulet/Core/ServiceTask+Response.swift:74-155 | invoking the installed handler keeps it installed and does exactly one of: queue one operation for its closure carrying the response, behind the existing queue; or throw one error and leave the queue unchanged |
| `ServiceTaskResponse.OnlyLastHandlerFires` | Condulet/Core/ServiceTask+Response.swift:18-156 | after a chain of builder calls, a response only queues work for the closure of the last handler installed and keeps earlier queued work in front |
| `Handlers.Decode` | Condulet/Core/ServiceTask+Response.swift:73-156 | whatever a handler hands its closure has the shape that closure is typed for (content, bytes, URL, string, JSON, dictionary, or a Decodable value of exactly the requested type `T`) |
| `Handlers.Handle` | Condulet/Core/ServiceTask+Response.swift:74-155 | every handler invocation either appends exactly one operation for its closure carrying the response unchanged, with a payload of the closure's shape (for `codable`, a value of the requested type), or throws exactly one error and appends nothing |
| `Handlers.ContentHandlerNeverFails` | Condulet/Core/ServiceTask+Response.swift:73-80 | the content handler never throws and queues exactly one operation carrying the content and response unchanged |
| `Handlers.DataHandlerAcceptsOnlyData` | Condulet/Core/ServiceTask+Response.swift:84-96 | the data handler succeeds if and only if the content is `.data`, then queues those bytes unchanged; on a file it throws `invalidResponse` and queues nothing |
| `Handlers.FileHandlerAcceptsOnlyFile` | Condulet/Core/ServiceTask+Response.swift:100-112 | the file handler succeeds if and only if the content is `.file`, then queues that URL unchanged; on data it throws `invalidResponse` and queues nothing |
| `Handlers.RawDeliveryKeepsContent` | Condulet/Core/ServiceTask+Response.swift:74-109 | the content, data and file handlers' deliveries give back exactly the content they received |
| `Handlers.TextHandlerForwards` | Condulet/Core/ServiceTask+Response.swift:116-123 | the text wrapper succeeds exactly when the text decoder does, queueing its string unchanged once; otherwise it rethrows the decoder's error and queues nothing |
| `Handlers.JsonHandlerForwards` | Condulet/Core/ServiceTask+Response.swift:127-134 | the JSON wrapper succeeds exactly when the JSON decoder does, queueing its object unchanged once; otherwise it rethrows the decoder's error and queues nothing |
| `Handlers.UrlEncodedHandlerForwards` | Condulet/Core/ServiceTask+Response.swift:138-145 | the url-encoded wrapper succeeds exactly when its decoder does, queueing the dictionary unchanged once; otherwise it rethrows and queues nothing |
| `Handlers.DecodableHandlerForwards` | Condulet/Core/ServiceTask+Response.swift:149-156 | the Decodable wrapper succeeds exactly when its decoder does for the requested type, queueing once a value of that type whose fields are the decoder's result unchanged; otherwise it rethrows and queues nothing |
| `Handlers.DelegatingHandlersRejectFiles` | Condulet/Core/ServiceTask+Response.swift:114-156 | with decoders that reject files, the text, JSON, url-encoded and Decodable handlers fail a file response with `invalidResponse` and queue nothing, as their documentation says |
| `ResponseQueue.Replay` | Condulet/Core/ServiceTask+Response.swift:74-155 | several tasks' handlers on one shared queue: the old queue stays in front, followed by exactly each completion's own delivery (one item when its handler decodes, none when it throws) in completion order; the errors are exactly each completion's own error in the same order, so each completion adds exactly one item or one error |
| `ResponseQueue.ReplaySplit` | Condulet/Core/ServiceTask+Response.swift:74-155 | handling one run of completions and then another on the queue it left is the same as handling them all at once: queued work is never reordered |

## Left out

- Handlers.Handle: for the text, JSON, url-encoded and Decodable handlers, the "exactly one queued item or one thrown error, carrying the response unchanged" rests on an assumption. `TextContentHandler`, `JSONContentHandler`, `URLEncodedContentHandler` and `DecodableContentHandler` are not part of this model. Each is assumed to call its closure at most once, never together with a throw, and to pass on the `URLResponse` it received. The same assumption holds for `Respond`, `Replay` and the four `...HandlerForwards` lemmas.
- Threads and `OperationQueue` execution are not modelled. The response queue is a sequence that only grows at its end, and running a queued operation is not modelled. Calling that queue FIFO assumes the task's response queue runs one operation at a time.
- The `[unowned queue = responseQueue]` capture is not modelled. Lifetimes and deallocation are not expressible here. In the source, an unowned reference to a deallocated queue traps; it is not a silently inert handler. The capture also fixes, when the builder runs, which queue later receives the deliveries. `Respond` instead appends to the task's queue at the moment of the response. No operation in this model replaces a task's queue, so the two agree here.
- `ServiceTask` is a class in the source, and each builder assigns `responseHandler` on that object and returns `self`. The builders are `@discardableResult`, so a call whose result is ignored still changes the task. Here the task is a value record, and each builder returns the updated record instead of `self`. This matches the source only when each result is passed to the next call, which `Chain` does. Object identity, aliasing of one task through several references, and the discarded-result call style are not modelled.
- `TextContentHandler`, `JSONContentHandler`, `URLEncodedContentHandler` and `DecodableContentHandler` are not part of this model. Their decoding (string encodings, `JSONSerialization`, form parsing, `JSONDecoder`) appears only as the `Decoders` parameter.
- Handlers.DelegatingHandlersRejectFiles: the `invalidResponse` on a file response, which the builders' documentation promises, is proved only for decoders assumed to reject files (`RejectsFiles`). The classes that decide it are not part of this model.
- `Data`, `URL` and `URLResponse` are plain values: a byte sequence, a string and a record that is never inspected. A Decodable value is a type name and a JSON tree. The Decodable decoder yields only the tree, and the handler tags it with the requested type name.
- Handlers that callers write themselves by conforming to `ServiceTaskResponseHandling` are not modelled. `response(_:)` accepts only the handler kinds this file builds, because the behaviour of other code is unknown.
- ServiceTaskResponse.Respond: it requires an installed handler. Whether and how a task invokes its handler, and what it does with none, is part of the task lifecycle, which is not part of this model. The same applies to starting, cancelling and reporting failures.
- The effects of the caller's closures are not modelled. A delivery records which closure would run, with which value and which response.

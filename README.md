# go-netty core, modelled in Dafny

go-netty is a Netty-style network framework in Go. A **bootstrap** owns
the listeners and, for every connection, builds a **channel**. The channel
wraps the **transport** (the connection) and a **pipeline**: a doubly
linked list of **handlers** between a head and a tail sentinel. Inbound
events start at the head and writes start at the tail. Errors that reach
the handlers are wrapped as **exceptions** that can print a traceback of
their unwrap chain. Transports are configured by functional **options**:
an address that is parsed as a URL and a context.

This project models four parts of the system:

- the pipeline's list operations (`pipeline.dfy`, module `Pipelines`);
- the bootstrap and listener lifecycle (`bootstrap.dfy`, module `Bootstraps`);
- exception wrapping and the traceback text (`exceptions.dfy`, module `Exceptions`);
- transport options (`transport.dfy`, module `Transport`).

`wrappers.dfy` holds `Option` and `Result`.

Modelling choices:

- **Panics are error results.** A `utils.Assert` panic is returned as a value:
  - an unrecognised handler, or an out-of-range position, is a `PipelineError`;
  - a failed host/port split is the `Failure` of `AddressWithoutHost`.
- **The pipeline keeps Go's in-place linked list.** Nodes live in an arena of
  `seq` fields (`handlers`, `next`, `prev`, with -1 for nil). The head is
  node 0 and the tail is node 1.
  - A ghost `chain` lists the node IDs from head to tail.
  - `Valid` states that the links and `size` agree with it.
  - `Contents()` is the handler sequence that every operation is specified
    against.
- **Collaborators are parameters.**
  - `url.Parse` is a `UrlParser`, and `net.SplitHostPort` is a
    `HostPortSplitter`.
  - The transport factory's `Connect` and `Listen` are functions from the
    parsed `Fields` of the options.
  - The acceptor's sequence of `Accept` results is an `AcceptStep` script.
  - The bootstrap records what it asks of the pipeline, channel and ID
    factories and of the initializers in a ghost `log` of `Call`s.
- **Go errors are `Error(typeName, message, unwrap)`.** `typeName` is what
  `%T` prints. `unwrap` says whether the error has an `Unwrap` method and
  what that method returns (possibly nil).

## Model

| member | source | states |
|---|---|---|
| Pipelines.Recognized | pipeline.go:297-306 | a handler passes the check iff it implements at least one of the six handler interfaces; the head and tail sentinels always do |
| Pipelines.CheckHandlers | pipeline.go:294-308 | no error iff every handler implements at least one handler interface; otherwise it reports the first unrecognised index |
| Pipelines.ReverseAt | pipeline.go:115-117 | element k of the reversed batch is element n-1-k of the batch, which is the order repeated head insertion leaves |
| Pipelines.ReverseSnoc | pipeline.go:115-117 | one more head insertion puts the new handler in front of the handlers already reversed |
| Pipelines.PrependStep | pipeline.go:115-117 | inserting handler i after the head extends the list "head, reversed first i handlers, rest" by one |
| Pipelines.InsertStep | pipeline.go:151-163 | inserting handler j right after the j handlers already placed at the cursor keeps the batch in order |
| Pipelines.SpliceDistinct | pipeline.go:226-231 | a freshly allocated context spliced into the list is not already on it, so no context is listed twice |
| Pipelines.SpliceNext | pipeline.go:225-231 | pointing the node at the new context, and the new context at the old successor, links the longer list forward |
| Pipelines.SplicePrev | pipeline.go:229-233 | pointing the old successor back at the new context, and the new context back at the node, links the longer list backward |
| Pipelines.SpliceKeepsChain | pipeline.go:223-250 | linking a new node between two neighbours keeps the list well formed: distinct nodes, head first, tail last, next and prev mutually consistent |
| Pipelines.SpliceContents | pipeline.go:223-250 | after the splice, the handler sequence is the old one with the new handler at the splice point |
| Pipelines.Pipeline.Contents | pipeline.go:103-108 | the handler list, head to tail, has exactly `size` entries, sentinels included |
| Pipelines.Pipeline.SentinelsAtEnds | pipeline.go:84-95 | the handler list always starts with the head sentinel and ends with the tail sentinel |
| Pipelines.Pipeline.constructor | pipeline.go:79-100 | a new pipeline is head and tail linked to each other, size 2, with no channel |
| Pipelines.Pipeline.Link | pipeline.go:225-234 | a new node holding h is linked after the p-th node; the contents gain h at p+1; size grows by one; existing nodes keep their handlers |
| Pipelines.Pipeline.AddFirstOne | pipeline.go:223-235 | the handler becomes the first one after the head; everything else keeps its order |
| Pipelines.Pipeline.AddLastOne | pipeline.go:238-250 | the handler becomes the last one before the tail; everything else keeps its order |
| Pipelines.Pipeline.AddFirst | pipeline.go:111-119 | an error iff some handler is unrecognised, and then nothing changes; otherwise the batch sits right after the head in reverse order |
| Pipelines.Pipeline.AddLast | pipeline.go:122-130 | an error iff some handler is unrecognised, and then nothing changes; otherwise the batch sits right before the tail in order |
| Pipelines.Pipeline.AddHandler | pipeline.go:133-166 | handlers are checked before the position; position >= size is an error; -1 and size-1 append before the tail; 0..size-2 insert the batch in order after that node; positions below -1 insert after the head |
| Pipelines.Pipeline.LinkAll | pipeline.go:151-163 | the batch is inserted in order after the node at the cursor, and size grows by the batch length |
| Pipelines.Pipeline.IndexOf | pipeline.go:169-183 | the first index from the head whose handler matches, or -1 iff none matches (sentinels included) |
| Pipelines.Pipeline.LastIndexOf | pipeline.go:186-200 | the last index whose handler matches, found from the tail, or -1 iff none matches |
| Pipelines.Pipeline.ContextAt | pipeline.go:203-215 | nil iff the position is -1 or at least size; otherwise the node at that position, where negative positions below -1 give the head |
| Pipelines.Pipeline.Size | pipeline.go:218-220 | the size is the length of the handler list, sentinels included, and at least 2 |
| Pipelines.Pipeline.ServeChannel | pipeline.go:259-264 | attaching a second channel is an error that changes nothing; otherwise the channel is attached |
| Pipelines.Pipeline.Fire | pipeline.go:266-290 | writes enter at the tail sentinel; active, read, exception, inactive and event enter at the head sentinel |
| Exceptions.Exception.Unwrap | exception.go:64-66 | an exception unwraps to the error it wraps |
| Exceptions.Exception.Message | exception.go:70-72 | an exception's message is its wrapped error's message |
| Exceptions.Exception.Stack | exception.go:76-78 | an exception's stack is the one captured when it was made |
| Exceptions.AsException | exception.go:41-53 | nil gives nil; an exception is returned as is; an error is wrapped with the captured stack; any other value becomes an error with its formatted text |
| Exceptions.AsExceptionIdempotent | exception.go:41-53 | converting an already converted value again returns the same exception, whatever stack is captured the second time |
| Exceptions.Chain | exception.go:96-107 | the traceback's hops start at the cause; each hop unwraps to the next; the last one has no non-nil Unwrap |
| Exceptions.Indent | exception.go:102 | the indentation before hop i is exactly 2i spaces |
| Exceptions.Render | exception.go:96-107 | the entries of the hops from hop `depth` on: each is "%T: message", and every hop after the first is preceded by a newline and two spaces per hop number |
| Exceptions.TraceText | exception.go:90-111 | the whole written text: the messages, "Error Traceback:\n", the rendered unwrap chain, a newline and the stack |
| Exceptions.TraceStartsWithCause | exception.go:90-103 | the text starts with the messages, the header and the cause's "%T: message" entry |
| Exceptions.RenderHop | exception.go:98-106 | the text from hop i is hop i's entry, followed (iff its Unwrap returns a non-nil error) by a newline, 2(i+1) spaces and the text from the next hop |
| Exceptions.RenderSnoc | exception.go:96-107 | one more hop appends a newline, deeper indentation and that hop's entry |
| Exceptions.PrintStackTrace | exception.go:82-114 | the written text is the messages, the header, one indented entry per hop of the unwrap chain, a newline and the stack |
| Exceptions.WalkAsWritten | exception.go:96-107 | the loop exactly as written: it keeps going while the error has an Unwrap method and panics (None) when that Unwrap has returned nil |
| Exceptions.WalkAsWrittenAgrees | exception.go:96-107 | when no Unwrap returns nil, the loop as written produces exactly the chain's rendering |
| Exceptions.WalkAsWrittenPanics | exception.go:96-107 | conversely, when some Unwrap along the chain returns nil, the loop as written panics, so it panics iff some Unwrap returns nil |
| Exceptions.NilUnwrapPanics | exception.go:96-107 | for an error whose Unwrap returns nil, the loop as written panics, while the corrected traceback ends at that error |
| Transport.ContainsMeansOccurs | transport/options.go:75-77 | the substring test used on the parse error holds iff the substring occurs at some position |
| Transport.RetryAsNetworkPath | transport/options.go:74-79 | a parse error is retried as a network-path reference iff its text contains "cannot contain colon" or "missing protocol scheme" |
| Transport.ParseAddress | transport/options.go:72-80 | the address is parsed; on a retryable error, "//" followed by the address is parsed instead and its result (success or error) is kept |
| Transport.WithDefaultPath | transport/options.go:81-84 | an empty path becomes exactly "/"; a URL with a non-empty path is unchanged; the scheme and the host are always kept |
| Transport.AddressOption | transport/options.go:70-87 | keeps the context; an error iff no address is set; a "cannot contain colon" or "missing protocol scheme" failure is retried as "//"+address; any address it sets has a non-empty path |
| Transport.Step | transport/options.go:70-95 | one option run on the fields: the address option, WithContext (replace the context, no error) or a custom option |
| Transport.ApplyAll | transport/options.go:53-60 | the options run in order, each on the fields the previous one left, stopping at and returning the first error |
| Transport.ApplyAllAppend | transport/options.go:53-60 | applying xs then ys equals applying xs+ys, and ys is never reached after an error |
| Transport.ApplyAllErrorComesFromAnOption | transport/options.go:53-60 | a returned error is the error of the first failing option, with all options before it succeeding |
| Transport.WithContextOnlySetsContext | transport/options.go:90-95 | WithContext replaces the context and never fails |
| Transport.ParsedAddressFirst | transport/options.go:63-66 | the address option runs before the caller's options, on options that start with the given context |
| Transport.Options.constructor | transport/options.go:64 | new options hold the given context and no address |
| Transport.Options.Apply | transport/options.go:53-60 | options are applied in order until the first error, which is returned |
| Transport.Options.AddressWithoutHost | transport/options.go:46-50 | it fails iff the host does not split; otherwise it gives ":" followed by the port |
| Transport.ParseOptions | transport/options.go:63-66 | the options are returned even with an error, holding what the applied options had set |
| Transport.Acceptor.constructor | transport/tcp/factory.go:75 | a new acceptor is open |
| Transport.Acceptor.Close | transport/tcp/factory.go:97-103 | the first close returns the socket's close result; later closes return nil; afterwards it is closed |
| Bootstraps.EndsLoop | bootstrap.go:192-200 | an accept step ends the loop iff the accept failed or the bootstrap's context is done when it is looked at |
| Bootstraps.LoopResult | bootstrap.go:193-200 | a failed accept returns its error; an accept after cancellation returns that transport's close result; a script that runs out means still accepting |
| Bootstraps.StopIndex | bootstrap.go:190-205 | the loop returns at the first accept that failed or that found the bootstrap cancelled, and at no step before it |
| Bootstraps.ServeCallsAt | bootstrap.go:73-99 | each accepted transport gets one channel with the next ID, then one child-initializer call, then is served, in accept order |
| Bootstraps.Channel.constructor | bootstrap.go:82 | a channel holds its ID, pipeline and transport, with no attachment |
| Bootstraps.Bootstrap.constructor | bootstrap.go:43-58 | a new bootstrap holds its root context, has no listeners and is not cancelled |
| Bootstraps.Bootstrap.ServeTransport | bootstrap.go:73-99 | a fresh pipeline and a channel with the next ID; then the attachment, only if given; then exactly one initializer (child or client); then the channel attached to the pipeline and served, in that order |
| Bootstraps.Bootstrap.Connect | bootstrap.go:102-117 | a parse error returns before dialing; a dial error returns without building a channel; otherwise the dialed transport is served as a client channel, in the same order as ServeTransport |
| Bootstraps.Bootstrap.Listen | bootstrap.go:121-125 | a new, unbound listener is stored under its url, replacing an earlier one, with no I/O |
| Bootstraps.Bootstrap.RemoveListener | bootstrap.go:138-140 | the url is no longer registered; nothing else changes |
| Bootstraps.SurvivorsStep | bootstrap.go:131-134 | closing the listener under one url unregisters it exactly when it has an acceptor |
| Bootstraps.Bootstrap.Shutdown | bootstrap.go:128-135 | cancels, then closes every listener: every bound acceptor ends closed, and only the listeners that never bound stay registered |
| Bootstraps.Bootstrap.AcceptLoop | bootstrap.go:190-205 | every transport accepted before the stop step is served as a child channel; a failed accept returns its error; an accept after cancellation closes that transport and returns its close result |
| Bootstraps.Listener.constructor | bootstrap.go:122 | a listener remembers its bootstrap, url and options, with no acceptor |
| Bootstraps.Listener.Close | bootstrap.go:164-170 | without an acceptor it returns nil and changes nothing; otherwise it unregisters the url and returns the acceptor's close result |
| Bootstraps.Listener.Sync | bootstrap.go:173-206 | a second Sync returns "duplicate call Listener:Sync"; parse and listen errors are returned; otherwise the acceptor is kept and the accept loop runs as in AcceptLoop |

## Left out

- Async (bootstrap.go:209-213): it runs Sync on a goroutine. Concurrency is out of scope, and a Shutdown racing the accept loop is a flag on the accept step.
- Per-context dispatch: what the head, tail and handler contexts do with an event once it enters is not part of this model. Fire stops at the entry node.
- Channel.serveChannel, SetAttachment and the initializers: their effects are code outside this model. Each call is logged, in the order the bootstrap makes it.
- url.Parse and net.SplitHostPort: they are parameters, so no URL grammar is modelled. The retry predicate looks only at the error text, as the source does.
- `%T` and `%v` formatting: these are data of the error value (`typeName`, `formatted`). The text of Go's formatter is not computed.
- PrintStackTrace: the output is returned as text. The default writer (standard error) and io.Copy are not modelled.
- Stack capture: the stack is a parameter, held as text rather than bytes.
- NewBootstrap's options and default factories (bootstrap.go:41-58): the factories are represented by the log and a channel-ID counter. TCP socket options in transport/tcp are not part of this model.
- Context objects: pipeline nodes are arena indices and not heap objects. Aliasing of contexts between pipelines cannot happen in the model.
- Transport.Options.AddressWithoutHost: requires an address to be set. The source dereferences a nil address and panics, and that case is not modelled.
- Pipelines.Pipeline.Channel: the getter has no contract. Its value is stated by ServeChannel and ServeTransport.

## Findings

| source | as written | input that shows it | evidently intended | confidence | as-written member | corrected member |
|---|---|---|---|---|---|---|
| exception.go:96-107 | the traceback loop continues whenever the error has an Unwrap method and then calls `Error()` on what it returned | an error whose `Unwrap()` returns nil, e.g. a wrapper with no inner error: the next iteration calls `Error()` on nil and panics | stop the traceback at the last non-nil error | not executed | Exceptions.WalkAsWritten (Exceptions.NilUnwrapPanics, Exceptions.WalkAsWrittenPanics) | Exceptions.Chain (Exceptions.PrintStackTrace) |

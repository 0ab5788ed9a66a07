# URI request/response protocol — a Dafny model

This project models the core of the URI protocol of the GPUOpen developer-driver
components. A tool sends a URI request string to a driver and gets back a
response that it streams out of a transfer block. The project has four modules,
one for each source file it models:

- `UriInterface` (`uri_interface.dfy`) models `inc/ddUriInterface.h`, the contract services see. It holds:
  - the result codes;
  - `URIDataFormat` and its numeric values;
  - the zero-initialised `PostDataInfo`;
  - the `URIResponseHeader` the client fills in;
  - the `IService` capability, whose post-size limit is 0 by default.
- `UriRequestContext` (`uri_request_context.dfy`) models `src/ddURIRequestContext.cpp`, the server-side request context.
  - It hands a service handler at most one writer (byte, text or structured) per request.
  - It records the response format.
  - It appends written bytes to the response block.
  - It accepts one "end of writer" call before `End()` makes it reusable.
  - The state machine is modelled twice. `CallResult`/`NextState`/`StateAfter` are pure functions over a sequence of handler calls, and its lemmas are stated on them. `URIRequestContext` is a class whose methods update its fields in place, and each method is proved to follow the pure functions.
- `UriClient` (`uri_client.dfy`) models `src/protocols/ddURIClient.cpp`, the client request engine. It has two states: `Idle` and `ReadResponse`.
  - `RequestURI` builds a request in one of three ways. Without post data the request is plain. Small post data goes inline. Large post data first goes through a post request, and is then pushed into a push block.
  - `RequestURI` then transacts the request. If the response names a pull block, it opens that block and fills in the caller's header.
  - `ReadResponse`, `AbortRequest` and `ResetState` stream the response and release the block.
  - The message channel and the transfer manager are collaborators, so their answers are parameters (`Exchange`, `RequestWorld`, `ReadAnswer`).
  - Every call the client makes on them is appended to a ghost log. A small automaton (`Track`/`Replay`) states the call discipline:
    - a reply is received only after a successful send;
    - a push block is written once, finalised only after a good write, and closed whenever it opened;
    - a pull block is read and closed only while it is open.
  - Each method is proved equal to a pure function of the inputs (`RequestOutcomeOf`, `PrepareRequest`, `Transact`, `DecodeResponse`), and the protocol's properties are lemmas about those functions.
  - The class invariant `Valid()` says that a pull block is held exactly in `ReadResponse`, and that the log keeps the discipline.
- `UriServer` (`uri_server.dfy`) models the service registry of `src/protocols/ddURIServer.h`.
  - The registry is a map from a 64-bit key to `ServiceInfo`, as the header declares it. The key is derived from the service name by a hash that is a parameter.
  - A lookup goes to the key of the queried name and compares the stored name exactly.
  - Lemmas show that this hashed lookup agrees with a search over all entries.
  - Lemmas show what registering and unregistering change.
  - `ValidatePostRequest` checks a requested post size against the service's limit.

The constants defined in headers outside this model are fields of `UriClient.Constants`. These are:
- `kMaxInlineDataSize`, `kLegacyMaxSize` and `kInvalidBlockId`;
- the two protocol versions;
- the payload struct sizes.

The negotiated session version is an `Option<uint16>`.

Where the code and its documentation differ, the model follows the code:
- The `Begin*Response` comments in `ddUriInterface.h` say a null out-pointer gives `Error`. The code returns `UriInvalidParameters`, and so does the model.
- The request string is checked only for being non-null. An empty string is sent.

## Model

| member | source | states |
|---|---|---|
| UriInterface.Truncate32 | source/DevDriverComponents/src/protocols/ddURIClient.cpp:96-104 | a `static_cast<uint32>` of a size keeps every size below 2^32 unchanged |
| UriInterface.URIDataFormatFromCode | source/DevDriverComponents/inc/ddUriInterface.h:47-53 | exactly the values 0..3 name a `URIDataFormat` |
| UriInterface.FormatCodeRoundTrip | source/DevDriverComponents/inc/ddUriInterface.h:47-53 | the enumerators are numbered from 0 and their numeric values identify them (encode then decode is the identity) |
| UriInterface.ZeroedPostDataInfoIsDefault | source/DevDriverComponents/inc/ddUriInterface.h:191-195 | a `PostDataInfo` equals the default exactly when every field is zero: a null data view, size 0 and the format numbered 0 |
| UriInterface.URIResponseHeader.constructor | source/DevDriverComponents/inc/ddUriInterface.h:261-268 | a value-initialised header holds size 0 and format `Unknown` |
| UriInterface.Service.constructor | source/DevDriverComponents/inc/ddUriInterface.h:276-281 | a service reports the name and version it was built with |
| UriInterface.DefaultServiceAcceptsNoPostData | source/DevDriverComponents/inc/ddUriInterface.h:324-331 | a service that keeps the default limit accepts a post size exactly when it is 0 |
| UriRequestContext.SelectedState | source/DevDriverComponents/src/ddURIRequestContext.cpp:123-183 | each writer kind selects one of the three writer-selected states |
| UriRequestContext.BeginResponseTransition | source/DevDriverComponents/src/ddURIRequestContext.cpp:123-183 | `Begin*Response` succeeds iff the out-pointer is non-null and the context is in `WriterSelection`; then it selects that writer's state and format (binary for bytes, text for text and structured); a null out-pointer gives `UriInvalidParameters`, any other state `Rejected`, and a failure changes nothing |
| UriRequestContext.WriteBytesTransition | source/DevDriverComponents/src/ddURIRequestContext.cpp:34-64 | a write with bytes succeeds in every state and changes no state; `(null, 0)` succeeds iff a writer is selected and then moves to `WritingCompleted`; `(null, n > 0)` is an `Error` |
| UriRequestContext.NoReturnToSelection | source/DevDriverComponents/src/ddURIRequestContext.cpp:34-64 | no handler call returns the context to `WriterSelection`: only `End()` does |
| UriRequestContext.SingleWriterPerContext | source/DevDriverComponents/inc/ddUriInterface.h:212-231 | across any sequence of handler calls at most one writer is handed out per request, and none once selection is over |
| UriRequestContext.RejectedOnceWriterReturned | source/DevDriverComponents/inc/ddUriInterface.h:212-231 | once any writer of any type has been returned, every later `Begin*Response` with a valid out-pointer returns `Rejected` |
| UriRequestContext.WriterEndedOnce | source/DevDriverComponents/src/ddURIRequestContext.cpp:45-61 | the end-of-writer signal is accepted at most once per request, and only for a writer that was handed out |
| UriRequestContext.URIRequestContext.constructor | source/DevDriverComponents/src/ddURIRequestContext.cpp:67-74 | a new context is in `WriterSelection` with zeroed post info and no block |
| UriRequestContext.URIRequestContext.Begin | source/DevDriverComponents/src/ddURIRequestContext.cpp:77-88 | `Begin` requires the previous request to have been ended and stores the arguments, format, block and post info the getters return |
| UriRequestContext.URIRequestContext.End | source/DevDriverComponents/src/ddURIRequestContext.cpp:91-96 | `End` is legal only in `WriterSelection` or `WritingCompleted` and makes the context reusable, changing nothing else |
| UriRequestContext.URIRequestContext.BeginByteResponse | source/DevDriverComponents/src/ddURIRequestContext.cpp:123-141 | result, new state and format follow the writer-selection machine; the byte writer is returned exactly on success |
| UriRequestContext.URIRequestContext.BeginTextResponse | source/DevDriverComponents/src/ddURIRequestContext.cpp:144-162 | as above for the text writer |
| UriRequestContext.URIRequestContext.BeginJsonResponse | source/DevDriverComponents/src/ddURIRequestContext.cpp:165-183 | as above for the structured writer, which records a text format |
| UriRequestContext.URIRequestContext.WriteBytes | source/DevDriverComponents/src/ddURIRequestContext.cpp:34-64 | result and state follow the machine; non-null bytes are appended to the response block exactly; an end-of-writer call writes nothing |
| UriRequestContext.ServerBlock.Write | source/DevDriverComponents/src/ddURIRequestContext.cpp:42 | a write to the response block appends exactly the given bytes |
| UriRequestContext.URIRequestContext.GetRequestArguments | source/DevDriverComponents/src/ddURIRequestContext.cpp:99-102 | returns the arguments `Begin` stored |
| UriRequestContext.URIRequestContext.GetPostData | source/DevDriverComponents/src/ddURIRequestContext.cpp:105-108 | returns the post info `Begin` stored, or the zeroed one of a new context |
| UriRequestContext.URIRequestContext.GetUriDataFormat | source/DevDriverComponents/src/ddURIRequestContext.cpp:111-114 | returns the format `Begin` stored, as a successful `Begin*Response` then replaces it |
| UriRequestContext.URIRequestContext.GetBlock | source/DevDriverComponents/src/ddURIRequestContext.cpp:117-120 | returns the response block `Begin` stored, or none for a new context |
| UriRequestContext.URIRequestContext.WriteValue | source/DevDriverComponents/inc/ddUriInterface.h:69-75 | writing a value appends exactly its bytes and leaves the state alone |
| UriClient.ResponseFormatToUriFormat | source/DevDriverComponents/src/protocols/ddURIClient.cpp:38-49 | the conversion keeps the numeric value of the format |
| UriClient.WireSizeByVersion | source/DevDriverComponents/src/protocols/ddURIClient.cpp:306-320 | a payload goes out at its real size to peers at or above the post-protocol version, at the legacy size otherwise and without a session |
| UriClient.TransactReceivesOnlyAfterSend | source/DevDriverComponents/src/protocols/ddURIClient.cpp:338-349 | a transaction sends first, receives iff the send succeeded, succeeds iff both did, and keeps the call discipline |
| UriClient.UploadKeepsDiscipline | source/DevDriverComponents/src/protocols/ddURIClient.cpp:124-142 | the push-block upload opens, writes, finalises after a good write and closes an opened block, ending with no block held |
| UriClient.PrepareRequest | source/DevDriverComponents/src/protocols/ddURIClient.cpp:82-156 | a successfully built request is a `URIRequestPayload` carrying the caller's request string |
| UriClient.ReportedFormatByVersion | source/DevDriverComponents/src/protocols/ddURIClient.cpp:195-199 | peers older than the response-formats version are reported text; newer ones the response's own format |
| UriClient.OutcomeBlockIffReading | source/DevDriverComponents/src/protocols/ddURIClient.cpp:204-214 | after a request a pull block is held exactly when the client is in `ReadResponse` |
| UriClient.InvalidRequestChangesNothing | source/DevDriverComponents/src/protocols/ddURIClient.cpp:70-73 | a request made outside `Idle` or with a null string returns `UriInvalidParameters`, makes no call and changes nothing, the header included; any other request writes the header |
| UriClient.SmallPostIsInline | source/DevDriverComponents/src/protocols/ddURIClient.cpp:84-106 | without post data, or with at most `kMaxInlineDataSize` bytes, the request is built without any call: plain, or with the data inline after the payload, marked binary with the invalid block id and the payload size grown by the data |
| UriClient.LargePostHandshake | source/DevDriverComponents/src/protocols/ddURIClient.cpp:107-155 | larger post data is announced by a post request first; a push block is opened iff that transaction and its reply succeed; the whole data is written; finalise happens iff the write succeeded; an opened block is closed; a block that does not open gives `UriFailedToAcquirePostBlock`; the request then names the block |
| UriClient.FinalRequestOnlyAfterPreparation | source/DevDriverComponents/src/protocols/ddURIClient.cpp:158-162 | the request is sent, right after the preparation calls, exactly when preparation succeeded; otherwise the preparation's result is returned |
| UriClient.ReadStateOnlyWhen | source/DevDriverComponents/src/protocols/ddURIClient.cpp:164-223 | the client enters `ReadResponse` iff everything succeeded, the reply is a successful `URIResponse` naming a real block, and the pull block opened with data in it; the held block is that one |
| UriClient.ResponseDecoding | source/DevDriverComponents/src/protocols/ddURIClient.cpp:164-223 | a reply with another tag is ignored with `Success`; a failed response returns its result; a block that fails to open gives `UriFailedToOpenResponseBlock`; an empty block is opened and closed at once |
| UriClient.ResponseHeaderReport | source/DevDriverComponents/src/protocols/ddURIClient.cpp:75-202 | the header holds size 0 and `Unknown` unless the pull block opened, and then the block's data size and the reported format; every failure leaves the defaults |
| UriClient.PreparationOpensNoPullBlock | source/DevDriverComponents/src/protocols/ddURIClient.cpp:82-156 | building a request never opens or closes a pull block |
| UriClient.DecodeKeepsDiscipline | source/DevDriverComponents/src/protocols/ddURIClient.cpp:174-221 | decoding opens at most the response's block and keeps it open only in `ReadResponse` |
| UriClient.RequestKeepsDiscipline | source/DevDriverComponents/src/protocols/ddURIClient.cpp:64-227 | every request keeps the call discipline and ends with no push block held and a pull block held exactly in `ReadResponse` |
| UriClient.PrepareKeepsDiscipline | source/DevDriverComponents/src/protocols/ddURIClient.cpp:82-156 | request preparation keeps the call discipline and releases every block it opens |
| UriClient.URIClient.constructor | source/DevDriverComponents/src/protocols/ddURIClient.cpp:52-56 | a new client is `Idle` with no block and has made no call |
| UriClient.URIClient.SendURIPayload | source/DevDriverComponents/src/protocols/ddURIClient.cpp:306-320 | the send puts the container on the wire at its version-dependent size and returns the channel's result |
| UriClient.URIClient.ReceiveURIPayload | source/DevDriverComponents/src/protocols/ddURIClient.cpp:324-334 | the receive records one receive call and returns the channel's result and reply |
| UriClient.URIClient.TransactURIPayload | source/DevDriverComponents/src/protocols/ddURIClient.cpp:338-349 | the method's result and calls are those of `Transact` |
| UriClient.URIClient.ClosePullBlockHandle | source/DevDriverComponents/src/protocols/ddURIClient.cpp:213 | closing hands back the pull block: one close call is logged and no block is held afterwards |
| UriClient.URIClient.BuildRequestPayload | source/DevDriverComponents/src/protocols/ddURIClient.cpp:82-156 | the method's result, container and calls are those of `PrepareRequest` |
| UriClient.URIClient.OpenResponse | source/DevDriverComponents/src/protocols/ddURIClient.cpp:164-223 | result, state, block, calls and header fields are those of `DecodeResponse` |
| UriClient.URIClient.RequestURI | source/DevDriverComponents/src/protocols/ddURIClient.cpp:64-227 | result, state, block, appended calls and header are those of `RequestOutcomeOf`, and the invariant (block held iff `ReadResponse`, discipline kept) is preserved |
| UriClient.URIClient.ReadResponse | source/DevDriverComponents/src/protocols/ddURIClient.cpp:256-274 | outside `ReadResponse` a read returns `UriInvalidParameters` and changes nothing; otherwise it returns the block's result and data, and on `EndOfStream` or `Error` closes the block and returns to `Idle` |
| UriClient.URIClient.AbortRequest | source/DevDriverComponents/src/protocols/ddURIClient.cpp:277-290 | aborting succeeds only in `ReadResponse`, closing the block and returning to `Idle`; otherwise `UriInvalidParameters` and no change |
| UriClient.URIClient.ResetState | source/DevDriverComponents/src/protocols/ddURIClient.cpp:293-302 | a reset closes a held block and leaves the client `Idle` with no block, from any state |
| UriClient.ReadAfterEndOfStream | source/DevDriverComponents/src/protocols/ddURIClient.cpp:256-274 | after the end of the stream a further read is refused with `UriInvalidParameters` |
| UriServer.LookupFindsRegistered | source/DevDriverComponents/src/protocols/ddURIServer.h:78-80 | in a well-keyed registry the hashed lookup returns a service iff some entry registers it under exactly that name |
| UriServer.LookupMissesUnregistered | source/DevDriverComponents/src/protocols/ddURIServer.h:78-80 | the hashed lookup returns nothing iff no entry carries the name |
| UriServer.LookupAfterAdd | source/DevDriverComponents/src/protocols/ddURIServer.h:59-60 | adding an entry at a free key makes its name findable and leaves every other lookup unchanged |
| UriServer.LookupAfterRemove | source/DevDriverComponents/src/protocols/ddURIServer.h:62-63 | removing an entry makes its name unfindable and leaves every other lookup unchanged |
| UriServer.URIServer.FindService | source/DevDriverComponents/src/protocols/ddURIServer.h:78-80 | the service returned is registered under exactly the queried name; nothing is returned iff no entry has that name |
| UriServer.URIServer.RegisterService | source/DevDriverComponents/src/protocols/ddURIServer.h:59-60 | a service whose key is free is added and becomes findable by its name; a taken key gives `UriServiceRegistrationError` and no change; no other lookup changes |
| UriServer.URIServer.UnregisterService | source/DevDriverComponents/src/protocols/ddURIServer.h:62-63 | the entry holding this very service is removed and its name becomes unfindable; otherwise `UriServiceRegistrationError` and no change; no other lookup changes |
| UriServer.URIServer.ValidatePostRequest | source/DevDriverComponents/src/protocols/ddURIServer.h:65-66 | the result is `UriInvalidParameters` iff no service has the name, and `Success` iff the named service's limit for these arguments admits the size; otherwise `UriInvalidPostDataSize` |

## Left out

- **Message channel.** Timeouts, retries, `SendSizedPayload`/`ReceiveSizedPayload` and the payload's byte layout are collaborators. Their answers are parameters of the operations.
- **Transfer blocks.** How push, pull and server blocks store bytes is collaborator behaviour. `OpenPushBlock`, `Write`, `Finalize`, `OpenPullBlock`, `Read` and `ClosePullBlock` appear as entries in the ghost call log. A server block is modelled by the bytes written to it.
- **Session lifecycle.** `URIServer`'s session overrides (`AcceptSession` … `SessionTerminated`) and `Finalize` are network plumbing whose bodies are not part of this model. So are the client's `BaseProtocolClient` connection handling and version negotiation.
- **Concurrency.** The registry mutex `m_mutex` is concurrency control, and the model is sequential.
- **Request dispatch.** `ServiceRequest` and `IService::HandleRequest` belong to `ddURIServer.cpp`, which is not part of this model.
- **Writer formatting.** The text and structured writers' formatting and their own `End()` are out of scope beyond the writer-selection machine.
- **Legacy paths.** The legacy `RequestURI(const char*, size_t*)` overload and the deprecated pre-cleanup `URIRequestContext` struct sit under version conditionals the model does not select.
- **ResponseDataFormat values.** A value outside the four enumerators, received from a peer, cannot be represented: the model's `ResponseDataFormat` has only the four enumerators.
- UriClient.URIClient.RequestURI: runs normally without a session. It reads a missing session as version 0 when it picks the reported format (ddURIClient.cpp:196), and the large-post path opens the push block without needing one (ddURIClient.cpp:125). The source dereferences the session at both places without a null check, while `SendURIPayload` does check it.
- **Helper methods.** The body of `RequestURI` is split into `BuildRequestPayload` and `OpenResponse` so that each proof stays small. `OpenResponse` requires the header defaults that `RequestURI` has just written.
- UriServer.URIServer.RegisterService: the implementation is not part of this model, so the error result for a taken key, `UriServiceRegistrationError`, is a choice. The `FixedString` name buffer is a precondition (the name fits in `kMaxUriServiceNameLength` with its terminator) rather than a truncation.
- UriServer.URIServer.ValidatePostRequest: the implementation is not part of this model, so two things are choices: the result for a request larger than the service's limit, `UriInvalidPostDataSize`, and the comparison that admits a size equal to the limit.
- UriServer.URIServer.UnregisterService: the error result when the service is not registered under its name, `UriServiceRegistrationError`, is a choice, because the implementation is not part of this model.
- **Debug assertions in `WriteBytes`.** In `URIRequestContext::WriteBytes` the debug-build assertions on an invalid end-of-writer call are not modelled; its release behaviour, returning `Error`, is. The assertions of `Begin` and `End` are preconditions.

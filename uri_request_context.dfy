// The server-side request context: the state machine that hands a service
// handler at most one response writer per request and accepts exactly one
// "end of writer" signal before the context can be reused.

module UriRequestContext {
  import opened UriInterface

  datatype ContextState =
    | WriterSelection
    | ByteWriterSelected
    | TextWriterSelected
    | JsonWriterSelected
    | WritingCompleted
  {
    predicate IsWriterSelected() {
      ByteWriterSelected? || TextWriterSelected? || JsonWriterSelected?
    }
  }

  /** The three writer members of a context, one per response kind. */
  datatype Writer = ByteWriter | TextWriter | JsonWriter

  /** The state a successful `Begin*Response` selects for a writer. */
  function SelectedState(w: Writer): (s: ContextState)
    ensures s.IsWriterSelected()
  {
    match w
    case ByteWriter => ByteWriterSelected
    case TextWriter => TextWriterSelected
    case JsonWriter => JsonWriterSelected
  }

  /** The response format a successful `Begin*Response` records. */
  function ResponseFormat(w: Writer): URIDataFormat
  {
    match w
    case ByteWriter => URIDataFormat.Binary
    case TextWriter => URIDataFormat.Text
    case JsonWriter => URIDataFormat.Text
  }

  // ---------------------------------------------------------------------------
  // The writer-selection machine as values: what a handler can do to its
  // context between `Begin` and `End`.

  /**
   * `BeginResponse(w, outValid)`: `Begin{Byte,Text,Json}Response`, where
   * `outValid` says whether the out-pointer is non-null.
   * `WriteBytesCall(hasBytes, numBytes)`: the writers' `WriteBytes` callback,
   * where `hasBytes` says whether the byte pointer is non-null.
   */
  datatype HandlerCall =
    | BeginResponse(writer: Writer, outValid: bool)
    | WriteBytesCall(hasBytes: bool, numBytes: nat)

  function CallResult(s: ContextState, call: HandlerCall): Result
  {
    match call
    case BeginResponse(_, outValid) =>
      if !outValid then UriInvalidParameters
      else if s == WriterSelection then Success
      else Rejected
    case WriteBytesCall(hasBytes, numBytes) =>
      if hasBytes then Success
      else if numBytes == 0 && s.IsWriterSelected() then Success
      else Error
  }

  function NextState(s: ContextState, call: HandlerCall): ContextState
  {
    match call
    case BeginResponse(w, outValid) =>
      if outValid && s == WriterSelection then SelectedState(w) else s
    case WriteBytesCall(hasBytes, numBytes) =>
      if !hasBytes && numBytes == 0 && s.IsWriterSelected() then WritingCompleted else s
  }

  function NextFormat(s: ContextState, f: URIDataFormat, call: HandlerCall): URIDataFormat
  {
    match call
    case BeginResponse(w, outValid) =>
      if outValid && s == WriterSelection then ResponseFormat(w) else f
    case WriteBytesCall(_, _) => f
  }

  /** The state after a sequence of handler calls. */
  function StateAfter(s: ContextState, calls: seq<HandlerCall>): ContextState
    decreases |calls|
  {
    if calls == [] then s else StateAfter(NextState(s, calls[0]), calls[1..])
  }

  /** The results of a sequence of handler calls, in order. */
  function ResultsOf(s: ContextState, calls: seq<HandlerCall>): (rs: seq<Result>)
    ensures |rs| == |calls|
    decreases |calls|
  {
    if calls == [] then [] else [CallResult(s, calls[0])] + ResultsOf(NextState(s, calls[0]), calls[1..])
  }

  /** How many writers a sequence of handler calls obtains. */
  function WritersGranted(s: ContextState, calls: seq<HandlerCall>): nat
    decreases |calls|
  {
    if calls == [] then 0
    else (if calls[0].BeginResponse? && CallResult(s, calls[0]) == Success then 1 else 0)
         + WritersGranted(NextState(s, calls[0]), calls[1..])
  }

  /** How many "end of writer" signals a sequence of handler calls gets accepted. */
  function WritersEnded(s: ContextState, calls: seq<HandlerCall>): nat
    decreases |calls|
  {
    if calls == [] then 0
    else (if calls[0] == WriteBytesCall(false, 0) && CallResult(s, calls[0]) == Success then 1 else 0)
         + WritersEnded(NextState(s, calls[0]), calls[1..])
  }

  /** Each `Begin*Response` hands out its writer only from `WriterSelection` and with a usable out-pointer. */
  lemma BeginResponseTransition(s: ContextState, f: URIDataFormat, w: Writer, outValid: bool)
    ensures var call := BeginResponse(w, outValid);
      && (CallResult(s, call) == Success <==> outValid && s == WriterSelection)
      && (CallResult(s, call) == Success ==>
            NextState(s, call) == SelectedState(w) && NextFormat(s, f, call) == ResponseFormat(w))
      && (!outValid ==> CallResult(s, call) == UriInvalidParameters)
      && (outValid && s != WriterSelection ==> CallResult(s, call) == Rejected)
      && (CallResult(s, call) != Success ==> NextState(s, call) == s && NextFormat(s, f, call) == f)
  {
  }

  /** Data writes succeed in every state and change no state; `(null, 0)` ends a selected writer, and only a selected one. */
  lemma WriteBytesTransition(s: ContextState, hasBytes: bool, numBytes: nat)
    ensures var call := WriteBytesCall(hasBytes, numBytes);
      && (hasBytes ==> CallResult(s, call) == Success && NextState(s, call) == s)
      && (!hasBytes && numBytes == 0 ==>
            (CallResult(s, call) == Success <==> s.IsWriterSelected())
            && NextState(s, call) == (if s.IsWriterSelected() then WritingCompleted else s))
      && (!hasBytes && numBytes > 0 ==> CallResult(s, call) == Error && NextState(s, call) == s)
  {
  }

  /** Between `Begin` and `End` no handler call leads back to `WriterSelection`. */
  lemma {:induction false} NoReturnToSelection(s: ContextState, calls: seq<HandlerCall>)
    requires s != WriterSelection
    ensures StateAfter(s, calls) != WriterSelection
    decreases |calls|
  {
    if calls != [] {
      NoReturnToSelection(NextState(s, calls[0]), calls[1..]);
    }
  }

  /** A request context hands out no more than one writer, of whatever kind, for each request. */
  lemma {:induction false} SingleWriterPerContext(s: ContextState, calls: seq<HandlerCall>)
    ensures WritersGranted(s, calls) <= (if s == WriterSelection then 1 else 0)
    decreases |calls|
  {
    if calls != [] {
      SingleWriterPerContext(NextState(s, calls[0]), calls[1..]);
    }
  }

  /** Once any writer has been returned, every further `Begin*Response` is rejected, whichever writer came first. */
  lemma {:induction false} RejectedOnceWriterReturned(s: ContextState, calls: seq<HandlerCall>, i: nat)
    requires s != WriterSelection
    requires i < |calls| && calls[i].BeginResponse? && calls[i].outValid
    ensures ResultsOf(s, calls)[i] == Rejected
    decreases |calls|
  {
    if i > 0 {
      RejectedOnceWriterReturned(NextState(s, calls[0]), calls[1..], i - 1);
    }
  }

  /** A writer is ended at most once, and only after it was handed out: the response block is never finalised twice. */
  lemma {:induction false} WriterEndedOnce(s: ContextState, calls: seq<HandlerCall>)
    ensures WritersEnded(s, calls) <= WritersGranted(s, calls) + (if s.IsWriterSelected() then 1 else 0)
    ensures WritersEnded(s, calls) <= 1
    decreases |calls|
  {
    if calls != [] {
      WriterEndedOnce(NextState(s, calls[0]), calls[1..]);
      SingleWriterPerContext(NextState(s, calls[0]), calls[1..]);
    }
  }

  // ---------------------------------------------------------------------------
  // The context object.

  /** The server-side response block; only what has been written to it is modelled. */
  class ServerBlock {
    ghost var contents: seq<byte>

    constructor ()
      ensures contents == []
    {
      contents := [];
    }

    method Write(bytes: seq<byte>)
      modifies this
      ensures contents == old(contents) + bytes
    {
      contents := contents + bytes;
    }
  }

  class URIRequestContext {
    var postInfo: PostDataInfo
    var contextState: ContextState
    var requestArguments: Option<string>
    var responseDataFormat: URIDataFormat
    var responseBlock: ServerBlock?

    function GetRequestArguments(): Option<string>
      reads this
    {
      requestArguments
    }

    function GetPostData(): PostDataInfo
      reads this
    {
      postInfo
    }

    function GetUriDataFormat(): URIDataFormat
      reads this
    {
      responseDataFormat
    }

    function GetBlock(): ServerBlock?
      reads this
    {
      responseBlock
    }

    /** A new context starts in `WriterSelection` with zeroed post info and no block. */
    constructor ()
      ensures contextState == WriterSelection
      ensures GetPostData() == DefaultPostDataInfo() && GetBlock() == null
    {
      postInfo := DefaultPostDataInfo();
      contextState := WriterSelection;
      requestArguments := None;
      responseDataFormat := URIDataFormat.Unknown;
      responseBlock := null;
    }

    /** Prepares the context for a request; the previous request must have been ended. */
    method Begin(arguments: Option<string>, format: URIDataFormat, block: ServerBlock?, postDataInfo: PostDataInfo)
      requires contextState == WriterSelection
      modifies this
      ensures contextState == WriterSelection
      ensures GetPostData() == postDataInfo && GetRequestArguments() == arguments
      ensures GetUriDataFormat() == format && GetBlock() == block
    {
      postInfo := postDataInfo;
      requestArguments := arguments;
      responseDataFormat := format;
      responseBlock := block;
      contextState := WriterSelection;
    }

    /** Finishes a request: legal only when no writer is still open; always leaves the context reusable. */
    method End()
      requires contextState == WriterSelection || contextState == WritingCompleted
      modifies this
      ensures contextState == WriterSelection
      ensures postInfo == old(postInfo) && requestArguments == old(requestArguments)
      ensures responseDataFormat == old(responseDataFormat) && responseBlock == old(responseBlock)
    {
      contextState := WriterSelection;
    }

    method BeginByteResponse(outValid: bool) returns (result: Result, writer: Option<Writer>)
      modifies this
      ensures var call := BeginResponse(ByteWriter, outValid);
        && result == CallResult(old(contextState), call)
        && contextState == NextState(old(contextState), call)
        && responseDataFormat == NextFormat(old(contextState), old(responseDataFormat), call)
      ensures writer == if result == Success then Some(ByteWriter) else None
      ensures postInfo == old(postInfo) && requestArguments == old(requestArguments) && responseBlock == old(responseBlock)
    {
      result := UriInvalidParameters;
      writer := None;
      if outValid {
        if contextState == WriterSelection {
          contextState := ByteWriterSelected;
          writer := Some(ByteWriter);
          responseDataFormat := URIDataFormat.Binary;
          result := Success;
        } else {
          result := Rejected;
        }
      }
    }

    method BeginTextResponse(outValid: bool) returns (result: Result, writer: Option<Writer>)
      modifies this
      ensures var call := BeginResponse(TextWriter, outValid);
        && result == CallResult(old(contextState), call)
        && contextState == NextState(old(contextState), call)
        && responseDataFormat == NextFormat(old(contextState), old(responseDataFormat), call)
      ensures writer == if result == Success then Some(TextWriter) else None
      ensures postInfo == old(postInfo) && requestArguments == old(requestArguments) && responseBlock == old(responseBlock)
    {
      result := UriInvalidParameters;
      writer := None;
      if outValid {
        if contextState == WriterSelection {
          contextState := TextWriterSelected;
          writer := Some(TextWriter);
          responseDataFormat := URIDataFormat.Text;
          result := Success;
        } else {
          result := Rejected;
        }
      }
    }

    method BeginJsonResponse(outValid: bool) returns (result: Result, writer: Option<Writer>)
      modifies this
      ensures var call := BeginResponse(JsonWriter, outValid);
        && result == CallResult(old(contextState), call)
        && contextState == NextState(old(contextState), call)
        && responseDataFormat == NextFormat(old(contextState), old(responseDataFormat), call)
      ensures writer == if result == Success then Some(JsonWriter) else None
      ensures postInfo == old(postInfo) && requestArguments == old(requestArguments) && responseBlock == old(responseBlock)
    {
      result := UriInvalidParameters;
      writer := None;
      if outValid {
        if contextState == WriterSelection {
          contextState := JsonWriterSelected;
          responseDataFormat := URIDataFormat.Text;
          writer := Some(JsonWriter);
          result := Success;
        } else {
          result := Rejected;
        }
      }
    }

    /**
     * The callback behind all three writers. Non-null bytes are appended to the
     * response block in every state; `(null, 0)` is the end-of-writer signal.
     * The debug-build assertions of the invalid end-of-writer branch are not
     * modelled: the release behaviour, returning `Error`, is.
     */
    method WriteBytes(bytes: Option<seq<byte>>, numBytes: nat) returns (result: Result)
      requires bytes.Some? ==> numBytes <= |bytes.value| && responseBlock != null
      modifies this, responseBlock
      ensures var call := WriteBytesCall(bytes.Some?, numBytes);
        && result == CallResult(old(contextState), call)
        && contextState == NextState(old(contextState), call)
      ensures responseBlock == old(responseBlock) && responseDataFormat == old(responseDataFormat)
      ensures postInfo == old(postInfo) && requestArguments == old(requestArguments)
      ensures bytes.Some? ==> responseBlock.contents == old(responseBlock.contents) + bytes.value[..numBytes]
      ensures bytes.None? && responseBlock != null ==> responseBlock.contents == old(responseBlock.contents)
    {
      result := Error;
      if bytes.Some? {
        responseBlock.Write(bytes.value[..numBytes]);
        result := Success;
      } else if numBytes == 0 {
        match contextState
        case ByteWriterSelected =>
          contextState := WritingCompleted;
          result := Success;
        case TextWriterSelected =>
          contextState := WritingCompleted;
          result := Success;
        case JsonWriterSelected =>
          contextState := WritingCompleted;
          result := Success;
        case _ =>
          result := Error;
      }
    }

    /** `IByteWriter::Write(value)`: writes exactly the bytes of the value's representation. */
    method WriteValue(representation: seq<byte>)
      requires responseBlock != null
      modifies this, responseBlock
      ensures contextState == old(contextState) && responseBlock == old(responseBlock)
      ensures responseDataFormat == old(responseDataFormat)
      ensures postInfo == old(postInfo) && requestArguments == old(requestArguments)
      ensures responseBlock.contents == old(responseBlock.contents) + representation
    {
      var _ := WriteBytes(Some(representation), |representation|);
    }
  }
}

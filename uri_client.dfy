// The URI client: a two-state request engine (Idle / ReadResponse) that sends
// one request at a time, uploads large post data through a push block, and
// streams a response out of a pull block.
//
// The message channel and the transfer manager are collaborators whose
// answers are given to each operation as a value (`RequestWorld`,
// `Exchange`, `ReadAnswer`). Every call the client makes on them is appended
// to a ghost log, so that ordering and balance of open/close can be stated.

module UriClient {
  import opened UriInterface

  datatype State = Idle | ReadResponse

  /** Protocol constants defined in headers that are not part of this model. */
  datatype Constants = Constants(
    maxInlineDataSize: nat,          // kMaxInlineDataSize
    legacyMaxSize: uint32,           // kLegacyMaxSize
    invalidBlockId: uint32,          // TransferProtocol::kInvalidBlockId
    postProtocolVersion: uint16,     // URI_POST_PROTOCOL_VERSION
    responseFormatsVersion: uint16,  // URI_RESPONSE_FORMATS_VERSION
    requestPayloadSize: uint32,      // sizeof(URIRequestPayload)
    postRequestPayloadSize: uint32)  // sizeof(URIPostRequestPayload)

  datatype TransferDataFormat = Unknown | Text | Binary

  /** `ResponseDataFormat`, as carried in a response; numbered like `URIDataFormat`. */
  datatype ResponseDataFormat = Unknown | Text | Binary | Count
  {
    function Code(): uint32
    {
      match this
      case Unknown => 0
      case Text => 1
      case Binary => 2
      case Count => 3
    }
  }

  /** Converts a response format to the service-facing format, keeping its numeric value. */
  function ResponseFormatToUriFormat(format: ResponseDataFormat): (r: URIDataFormat)
    ensures r.Code() == format.Code()
  {
    match format
    case Unknown => URIDataFormat.Unknown
    case Text => URIDataFormat.Text
    case Binary => URIDataFormat.Binary
    case Count => URIDataFormat.Count
  }

  /** How a request refers to its post data. */
  datatype PostDescriptor =
    | NoPostData
    | PostData(blockId: uint32, format: TransferDataFormat, size: uint32)

  /** The typed message a container holds; `NoMessage` is the zero-initialised container. */
  datatype Message =
    | NoMessage
    | URIRequestPayload(request: string, post: PostDescriptor)
    | URIPostRequestPayload(request: string, postDataSize: uint32)

  /** `SizedPayloadContainer`: one message, the inline bytes after it, and its logical size. */
  datatype Container = Container(message: Message, inlineData: seq<byte>, payloadSize: uint32)

  const EmptyContainer := Container(NoMessage, [], 0)

  datatype URIMessage = URIRequest | URIResponse | URIPostRequest | URIPostResponse

  /**
   * A received container, as the fields the client reads out of it: the
   * command tag, and the result, block id and format at their fixed places.
   * The post-request reply is read through the same fields without a check
   * of its tag, as the client does.
   */
  datatype Reply = Reply(command: URIMessage, result: Result, blockId: uint32, format: ResponseDataFormat)

  /** The channel's answers to one send-then-receive transaction. */
  datatype Exchange = Exchange(sendResult: Result, receiveResult: Result, reply: Reply)

  /** The collaborators' answers to everything one `RequestURI` may ask of them. */
  datatype RequestWorld = RequestWorld(
    postTransaction: Exchange,      // the post-request transaction
    pushBlockOpens: bool,           // OpenPushBlock returns a block
    pushWrite: Result,              // PushBlock::Write
    pushFinalize: Result,           // PushBlock::Finalize
    requestTransaction: Exchange,   // the request transaction
    pullBlockSize: Option<nat>)     // OpenPullBlock: None for a null block, else its data size

  /** The pull block's answer to one read. */
  datatype ReadAnswer = ReadAnswer(result: Result, data: seq<byte>)

  datatype PullBlock = PullBlock(id: uint32, dataSize: nat)

  /** A call on the message channel or the transfer manager, with its outcome. */
  datatype Call =
    | Send(message: Message, wireSize: uint32, result: Result)
    | Receive(result: Result)
    | OpenPushBlock(blockId: uint32, size: nat, acquired: bool)
    | WritePushBlock(data: seq<byte>, result: Result)
    | FinalizePushBlock(result: Result)
    | ClosePushBlock
    | OpenPullBlock(blockId: uint32, acquired: bool)
    | ReadPullBlock(bufferSize: nat, result: Result)
    | ClosePullBlock

  datatype HeaderFields = HeaderFields(sizeInBytes: nat, format: URIDataFormat)

  const DefaultHeader := HeaderFields(0, URIDataFormat.Unknown)

  // ---------------------------------------------------------------------------
  // Call discipline: an automaton over the log.

  datatype PushPhase = NoPushBlock | PushOpened | PushWritten(ok: bool) | PushFinalized

  /** What the client holds between calls: a push block in some phase, a pull block, a sent request awaiting its reply. */
  datatype Tracker = Tracker(push: PushPhase, pullOpen: bool, awaitingReply: bool)

  /** Nothing in flight and no push block held. */
  function Quiescent(pullOpen: bool): Tracker
  {
    Tracker(NoPushBlock, pullOpen, false)
  }

  /**
   * One call against the discipline; `None` is a violation. A request is sent
   * only when no block is held and no reply is pending, and a receive needs a
   * preceding successful send; a push block is written once after it opened,
   * finalised only after a successful write, and closed only when open; a
   * pull block is read and closed only when open.
   */
  function Track(t: Tracker, call: Call): Option<Tracker>
  {
    match call
    case Send(_, _, result) =>
      if t.awaitingReply || t.push != NoPushBlock || t.pullOpen then None
      else Some(t.(awaitingReply := result == Success))
    case Receive(_) =>
      if t.awaitingReply then Some(t.(awaitingReply := false)) else None
    case OpenPushBlock(_, _, acquired) =>
      if t.push == NoPushBlock then Some(t.(push := if acquired then PushOpened else NoPushBlock)) else None
    case WritePushBlock(_, result) =>
      if t.push == PushOpened then Some(t.(push := PushWritten(result == Success))) else None
    case FinalizePushBlock(_) =>
      if t.push == PushWritten(true) then Some(t.(push := PushFinalized)) else None
    case ClosePushBlock =>
      if t.push != NoPushBlock then Some(t.(push := NoPushBlock)) else None
    case OpenPullBlock(_, acquired) =>
      if !t.pullOpen then Some(t.(pullOpen := acquired)) else None
    case ReadPullBlock(_, _) =>
      if t.pullOpen then Some(t) else None
    case ClosePullBlock =>
      if t.pullOpen then Some(t.(pullOpen := false)) else None
  }

  function Replay(t: Tracker, calls: seq<Call>): Option<Tracker>
    decreases |calls|
  {
    if calls == [] then Some(t)
    else match Track(t, calls[0])
      case None => None
      case Some(next) => Replay(next, calls[1..])
  }

  lemma {:induction false} ReplayConcat(t: Tracker, a: seq<Call>, b: seq<Call>, mid: Tracker)
    requires Replay(t, a) == Some(mid)
    ensures Replay(t, a + b) == Replay(mid, b)
    decreases |a|
  {
    if a == [] {
      assert a + b == b;
    } else {
      assert (a + b)[0] == a[0];
      assert (a + b)[1..] == a[1..] + b;
      ReplayConcat(Track(t, a[0]).value, a[1..], b, mid);
    }
  }

  lemma ReplayPrepend(t: Tracker, call: Call, rest: seq<Call>)
    ensures Replay(t, [call] + rest) == match Track(t, call) case None => None case Some(next) => Replay(next, rest)
  {
    assert ([call] + rest)[0] == call;
    assert ([call] + rest)[1..] == rest;
  }

  lemma ReplayOne(t: Tracker, call: Call)
    ensures Replay(t, [call]) == Track(t, call)
  {
    ReplayPrepend(t, call, []);
    assert [call] + [] == [call];
  }

  // ---------------------------------------------------------------------------
  // The request as a function of the collaborators' answers.

  /** The session's negotiated version, or 0 without a session. */
  function SessionVersion(session: Option<uint16>): nat
  {
    if session.Some? then session.value else 0
  }

  /** The number of bytes put on the wire for a container. */
  function WireSize(c: Constants, session: Option<uint16>, k: Container): uint32
  {
    if SessionVersion(session) >= c.postProtocolVersion as nat then k.payloadSize else c.legacyMaxSize
  }

  lemma WireSizeByVersion(c: Constants, session: Option<uint16>, k: Container)
    ensures session.None? && c.postProtocolVersion > 0 ==> WireSize(c, session, k) == c.legacyMaxSize
    ensures session.Some? && session.value >= c.postProtocolVersion ==> WireSize(c, session, k) == k.payloadSize
    ensures session.Some? && session.value < c.postProtocolVersion ==> WireSize(c, session, k) == c.legacyMaxSize
  {
  }

  datatype Effect = Effect(result: Result, calls: seq<Call>)

  /** A send followed, only when the send succeeded, by a receive. */
  function Transact(c: Constants, session: Option<uint16>, k: Container, ex: Exchange): Effect
  {
    var send := Send(k.message, WireSize(c, session, k), ex.sendResult);
    if ex.sendResult == Success then Effect(ex.receiveResult, [send, Receive(ex.receiveResult)])
    else Effect(ex.sendResult, [send])
  }

  lemma TransactReceivesOnlyAfterSend(c: Constants, session: Option<uint16>, k: Container, ex: Exchange)
    ensures var e := Transact(c, session, k, ex);
      && |e.calls| >= 1 && e.calls[0] == Send(k.message, WireSize(c, session, k), ex.sendResult)
      && (Receive(ex.receiveResult) in e.calls <==> ex.sendResult == Success)
      && (e.result == Success <==> ex.sendResult == Success && ex.receiveResult == Success)
      && (ex.sendResult != Success ==> e.result == ex.sendResult)
      && Replay(Quiescent(false), e.calls) == Some(Quiescent(false))
  {
    var e := Transact(c, session, k, ex);
    var send := Send(k.message, WireSize(c, session, k), ex.sendResult);
    if ex.sendResult == Success {
      ReplayPrepend(Quiescent(false), send, [Receive(ex.receiveResult)]);
      ReplayOne(Quiescent(false).(awaitingReply := true), Receive(ex.receiveResult));
      assert e.calls == [send] + [Receive(ex.receiveResult)];
    } else {
      ReplayOne(Quiescent(false), send);
    }
  }

  /** The outcome of the push-block upload: open, write, finalize after a good write, close after a good open. */
  function Upload(blockId: uint32, data: seq<byte>, w: RequestWorld): Effect
  {
    if !w.pushBlockOpens then
      Effect(UriFailedToAcquirePostBlock, [OpenPushBlock(blockId, |data|, false)])
    else if w.pushWrite != Success then
      Effect(w.pushWrite, [OpenPushBlock(blockId, |data|, true), WritePushBlock(data, w.pushWrite), ClosePushBlock])
    else
      Effect(w.pushFinalize,
             [OpenPushBlock(blockId, |data|, true), WritePushBlock(data, w.pushWrite),
              FinalizePushBlock(w.pushFinalize), ClosePushBlock])
  }

  /** An upload starts and ends with no push block held. */
  lemma UploadKeepsDiscipline(blockId: uint32, data: seq<byte>, w: RequestWorld)
    ensures Replay(Quiescent(false), Upload(blockId, data, w).calls) == Some(Quiescent(false))
  {
    var q := Quiescent(false);
    var open := OpenPushBlock(blockId, |data|, w.pushBlockOpens);
    if !w.pushBlockOpens {
      ReplayOne(q, open);
    } else {
      var write := WritePushBlock(data, w.pushWrite);
      var written := q.(push := PushWritten(w.pushWrite == Success));
      if w.pushWrite == Success {
        var finalize := FinalizePushBlock(w.pushFinalize);
        ReplayOne(q.(push := PushFinalized), ClosePushBlock);
        ReplayPrepend(written, finalize, [ClosePushBlock]);
        ReplayPrepend(q.(push := PushOpened), write, [finalize, ClosePushBlock]);
        ReplayPrepend(q, open, [write, finalize, ClosePushBlock]);
        assert [finalize] + [ClosePushBlock] == [finalize, ClosePushBlock];
        assert [write] + [finalize, ClosePushBlock] == [write, finalize, ClosePushBlock];
        assert [open] + [write, finalize, ClosePushBlock] == Upload(blockId, data, w).calls;
      } else {
        ReplayOne(written, ClosePushBlock);
        ReplayPrepend(q.(push := PushOpened), write, [ClosePushBlock]);
        ReplayPrepend(q, open, [write, ClosePushBlock]);
        assert [write] + [ClosePushBlock] == [write, ClosePushBlock];
        assert [open] + [write, ClosePushBlock] == Upload(blockId, data, w).calls;
      }
    }
  }

  /** The request as built, with the calls made to build it. */
  datatype Prepared = Prepared(result: Result, request: Container, calls: seq<Call>)

  function PrepareRequest(c: Constants, session: Option<uint16>, request: string,
                          postData: Option<seq<byte>>, w: RequestWorld): (p: Prepared)
    ensures p.result == Success ==> p.request.message.URIRequestPayload? && p.request.message.request == request
  {
    if postData.None? || |postData.value| == 0 then
      Prepared(Success, Container(URIRequestPayload(request, NoPostData), [], c.requestPayloadSize), [])
    else if |postData.value| <= c.maxInlineDataSize then
      var n := |postData.value|;
      Prepared(Success,
               Container(URIRequestPayload(request, PostData(c.invalidBlockId, TransferDataFormat.Binary, Truncate32(n))),
                         postData.value, Truncate32(c.requestPayloadSize + n)),
               [])
    else
      var data := postData.value;
      var postRequest := Container(URIPostRequestPayload(request, Truncate32(|data|)), [], c.postRequestPayloadSize);
      var tx := Transact(c, session, postRequest, w.postTransaction);
      var reply := w.postTransaction.reply;
      if tx.result != Success then Prepared(tx.result, EmptyContainer, tx.calls)
      else if reply.result != Success then Prepared(reply.result, EmptyContainer, tx.calls)
      else
        var up := Upload(reply.blockId, data, w);
        if up.result != Success then Prepared(up.result, EmptyContainer, tx.calls + up.calls)
        else
          Prepared(Success,
                   Container(URIRequestPayload(request, PostData(reply.blockId, TransferDataFormat.Binary, Truncate32(|data|))),
                             [], c.requestPayloadSize),
                   tx.calls + up.calls)
  }

  /** The format reported to the caller: text for peers older than the response-formats version. */
  function ReportedFormat(c: Constants, session: Option<uint16>, format: ResponseDataFormat): URIDataFormat
  {
    if SessionVersion(session) >= c.responseFormatsVersion as nat then ResponseFormatToUriFormat(format)
    else URIDataFormat.Text
  }

  lemma ReportedFormatByVersion(c: Constants, session: Option<uint16>, format: ResponseDataFormat)
    ensures SessionVersion(session) < c.responseFormatsVersion as nat ==> ReportedFormat(c, session, format) == URIDataFormat.Text
    ensures SessionVersion(session) >= c.responseFormatsVersion as nat ==> ReportedFormat(c, session, format).Code() == format.Code()
  {
  }

  /** What a `RequestURI` call leaves behind: `header` is the value written to a supplied header, `None` when it is left alone. */
  datatype RequestOutcome = RequestOutcome(
    result: Result, state: State, block: Option<PullBlock>, header: Option<HeaderFields>, calls: seq<Call>)

  /** Decoding the reply to a successfully transacted request. */
  function DecodeResponse(c: Constants, session: Option<uint16>, reply: Reply, pullBlockSize: Option<nat>,
                          calls: seq<Call>): RequestOutcome
  {
    if reply.command != URIResponse || reply.result != Success || reply.blockId == c.invalidBlockId then
      RequestOutcome(if reply.command == URIResponse then reply.result else Success, Idle, None, Some(DefaultHeader), calls)
    else if pullBlockSize.None? then
      RequestOutcome(UriFailedToOpenResponseBlock, Idle, None, Some(DefaultHeader),
                     calls + [OpenPullBlock(reply.blockId, false)])
    else
      var size := pullBlockSize.value;
      var header := HeaderFields(size, ReportedFormat(c, session, reply.format));
      if size > 0 then
        RequestOutcome(Success, ReadResponse, Some(PullBlock(reply.blockId, size)), Some(header),
                       calls + [OpenPullBlock(reply.blockId, true)])
      else
        RequestOutcome(Success, Idle, None, Some(header), calls + [OpenPullBlock(reply.blockId, true), ClosePullBlock])
  }

  /** Decoding only appends to the calls made so far. */
  lemma DecodeResponseAppends(c: Constants, session: Option<uint16>, reply: Reply, pullBlockSize: Option<nat>,
                              earlier: seq<Call>, calls: seq<Call>)
    ensures var o := DecodeResponse(c, session, reply, pullBlockSize, calls);
      DecodeResponse(c, session, reply, pullBlockSize, earlier + calls) == o.(calls := earlier + o.calls)
  {
    var o := DecodeResponse(c, session, reply, pullBlockSize, calls);
    assert o.calls[..|calls|] == calls;
    assert (earlier + calls) + o.calls[|calls|..] == earlier + o.calls;
  }

  function RequestOutcomeOf(c: Constants, session: Option<uint16>, state: State, block: Option<PullBlock>,
                            request: Option<string>, postData: Option<seq<byte>>, w: RequestWorld): RequestOutcome
  {
    if state != Idle || request.None? then
      RequestOutcome(UriInvalidParameters, state, block, None, [])
    else
      TransactPrepared(c, session, PrepareRequest(c, session, request.value, postData, w), w)
  }

  /** Sends a built request, when building it succeeded, and decodes the reply. */
  function TransactPrepared(c: Constants, session: Option<uint16>, prep: Prepared, w: RequestWorld): RequestOutcome
  {
      if prep.result != Success then
        RequestOutcome(prep.result, Idle, None, Some(DefaultHeader), prep.calls)
      else
        var tx := Transact(c, session, prep.request, w.requestTransaction);
        if tx.result != Success then
          RequestOutcome(tx.result, Idle, None, Some(DefaultHeader), prep.calls + tx.calls)
        else
          DecodeResponse(c, session, w.requestTransaction.reply, w.pullBlockSize, prep.calls + tx.calls)
  }

  // ---------------------------------------------------------------------------
  // Properties of a request.

  /** The key invariant after a request: a pull block is held exactly in `ReadResponse`. */
  lemma OutcomeBlockIffReading(c: Constants, session: Option<uint16>, request: Option<string>,
                               postData: Option<seq<byte>>, w: RequestWorld)
    ensures var o := RequestOutcomeOf(c, session, Idle, None, request, postData, w);
      o.block.Some? <==> o.state == ReadResponse
  {
  }

  /** A request is refused, with nothing touched, unless the client is idle and the request string is non-null. */
  lemma InvalidRequestChangesNothing(c: Constants, session: Option<uint16>, state: State, block: Option<PullBlock>,
                                     request: Option<string>, postData: Option<seq<byte>>, w: RequestWorld)
    ensures var o := RequestOutcomeOf(c, session, state, block, request, postData, w);
      && (o.header.None? <==> state != Idle || request.None?)
      && (o.header.None? ==> o.result == UriInvalidParameters && o.state == state && o.block == block && o.calls == [])
  {
  }

  /** Small post data travels inline: no block, no preliminary transaction. */
  lemma SmallPostIsInline(c: Constants, session: Option<uint16>, request: string, postData: Option<seq<byte>>,
                          w: RequestWorld)
    requires postData.None? || |postData.value| <= c.maxInlineDataSize
    ensures var p := PrepareRequest(c, session, request, postData, w);
      && p.result == Success && p.calls == []
      && (postData.None? || postData.value == [] ==>
            p.request == Container(URIRequestPayload(request, NoPostData), [], c.requestPayloadSize))
      && (postData.Some? && postData.value != [] ==>
            var n := |postData.value|;
            && p.request.message == URIRequestPayload(request, PostData(c.invalidBlockId, TransferDataFormat.Binary, Truncate32(n)))
            && p.request.inlineData == postData.value
            && (c.requestPayloadSize + n < 0x1_0000_0000 ==> p.request.payloadSize == c.requestPayloadSize + n))
    ensures var o := RequestOutcomeOf(c, session, Idle, None, Some(request), postData, w);
      forall i :: 0 <= i < |o.calls| ==> !o.calls[i].OpenPushBlock?
  {
  }

  /**
   * Large post data goes through the handshake: the post request is
   * transacted first, a push block is opened only when the transaction and
   * the reply's result both succeed, the whole data is written into it, and
   * a block that opened is closed. A block that fails to open is reported.
   */
  lemma LargePostHandshake(c: Constants, session: Option<uint16>, request: string, data: seq<byte>, w: RequestWorld)
    requires |data| > c.maxInlineDataSize
    ensures var p := PrepareRequest(c, session, request, Some(data), w);
      var tx := Transact(c, session, Container(URIPostRequestPayload(request, Truncate32(|data|)), [], c.postRequestPayloadSize), w.postTransaction);
      var handshakeOk := tx.result == Success && w.postTransaction.reply.result == Success;
      var blockId := w.postTransaction.reply.blockId;
      && p.calls[..|tx.calls|] == tx.calls
      && (OpenPushBlock(blockId, |data|, w.pushBlockOpens) in p.calls <==> handshakeOk)
      && (!handshakeOk ==> p.calls == tx.calls && p.result != Success)
      && (handshakeOk && w.pushBlockOpens ==>
            WritePushBlock(data, w.pushWrite) in p.calls && p.calls[|p.calls| - 1] == ClosePushBlock
            && (FinalizePushBlock(w.pushFinalize) in p.calls <==> w.pushWrite == Success))
      && (handshakeOk && !w.pushBlockOpens ==> p.result == UriFailedToAcquirePostBlock && ClosePushBlock !in p.calls)
      && (p.result == Success <==> handshakeOk && w.pushBlockOpens && w.pushWrite == Success && w.pushFinalize == Success)
      && (p.result == Success ==>
            p.request.message == URIRequestPayload(request, PostData(blockId, TransferDataFormat.Binary, Truncate32(|data|))))
  {
    var p := PrepareRequest(c, session, request, Some(data), w);
    var tx := Transact(c, session, Container(URIPostRequestPayload(request, Truncate32(|data|)), [], c.postRequestPayloadSize), w.postTransaction);
    if tx.result == Success && w.postTransaction.reply.result == Success {
      var up := Upload(w.postTransaction.reply.blockId, data, w);
      assert p.calls == tx.calls + up.calls;
      assert p.calls[..|tx.calls|] == tx.calls;
      assert up.calls[0] in p.calls by { assert p.calls[|tx.calls|] == up.calls[0]; }
      if w.pushBlockOpens {
        assert p.calls[|tx.calls| + 1] == up.calls[1];
        if w.pushWrite == Success {
          assert p.calls[|tx.calls| + 2] == up.calls[2];
        } else {
          assert forall i :: 0 <= i < |p.calls| ==> !p.calls[i].FinalizePushBlock?;
        }
      } else {
        assert forall i :: 0 <= i < |p.calls| ==> !p.calls[i].ClosePushBlock?;
      }
    } else {
      assert p.calls[..|tx.calls|] == tx.calls;
      assert forall i :: 0 <= i < |p.calls| ==> !p.calls[i].OpenPushBlock?;
    }
  }

  /** The request itself is transacted exactly when building it succeeded, and its reply is received only after it was sent. */
  lemma FinalRequestOnlyAfterPreparation(c: Constants, session: Option<uint16>, request: string,
                                         postData: Option<seq<byte>>, w: RequestWorld)
    ensures var p := PrepareRequest(c, session, request, postData, w);
      var o := RequestOutcomeOf(c, session, Idle, None, Some(request), postData, w);
      && o.calls[..|p.calls|] == p.calls
      && (p.result == Success ==>
            |o.calls| > |p.calls| && o.calls[|p.calls|] == Send(p.request.message, WireSize(c, session, p.request), w.requestTransaction.sendResult))
      && (p.result != Success ==> o.calls == p.calls && o.result == p.result)
  {
  }

  /**
   * The client moves to `ReadResponse` exactly when the request succeeded,
   * the reply is a `URIResponse` with a `Success` result and a real block id,
   * and the pull block opened with data in it.
   */
  lemma ReadStateOnlyWhen(c: Constants, session: Option<uint16>, request: string, postData: Option<seq<byte>>,
                          w: RequestWorld)
    ensures var p := PrepareRequest(c, session, request, postData, w);
      var o := RequestOutcomeOf(c, session, Idle, None, Some(request), postData, w);
      var reply := w.requestTransaction.reply;
      && (o.state == ReadResponse <==>
            && p.result == Success
            && Transact(c, session, p.request, w.requestTransaction).result == Success
            && reply.command == URIResponse && reply.result == Success && reply.blockId != c.invalidBlockId
            && w.pullBlockSize.Some? && w.pullBlockSize.value > 0)
      && (o.block.Some? ==> o.block.value == PullBlock(reply.blockId, w.pullBlockSize.value) && o.result == Success)
  {
  }

  /** How the reply to a transacted request is decoded: a foreign tag is ignored, an empty block is closed at once, a missing block is an error. */
  lemma ResponseDecoding(c: Constants, session: Option<uint16>, reply: Reply, pullBlockSize: Option<nat>, calls: seq<Call>)
    ensures var o := DecodeResponse(c, session, reply, pullBlockSize, calls);
      && o.calls[..|calls|] == calls
      && (reply.command != URIResponse ==> o.result == Success && o.state == Idle && o.calls == calls)
      && (reply.command == URIResponse && reply.result != Success ==> o.result == reply.result && o.state == Idle)
      && (reply.command == URIResponse && reply.result == Success && reply.blockId != c.invalidBlockId ==>
            && (pullBlockSize.None? ==> o.result == UriFailedToOpenResponseBlock && o.state == Idle && o.block.None?)
            && (pullBlockSize == Some(0) ==>
                  o.result == Success && o.state == Idle && o.block.None?
                  && o.calls == calls + [OpenPullBlock(reply.blockId, true), ClosePullBlock]))
  {
  }

  /**
   * The response header holds size 0 and format `Unknown` unless the pull
   * block opened; then it holds the block's data size and the reported format.
   */
  lemma ResponseHeaderReport(c: Constants, session: Option<uint16>, request: string, postData: Option<seq<byte>>,
                             w: RequestWorld)
    ensures var o := RequestOutcomeOf(c, session, Idle, None, Some(request), postData, w);
      var reply := w.requestTransaction.reply;
      var isOpen := OpenPullBlock(reply.blockId, true) in o.calls;
      && o.header.Some?
      && (!isOpen ==> o.header.value == DefaultHeader)
      && (isOpen ==>
            w.pullBlockSize.Some? && o.header.value == HeaderFields(w.pullBlockSize.value, ReportedFormat(c, session, reply.format)))
      && (o.result != Success ==> o.header.value == DefaultHeader)
  {
    var p := PrepareRequest(c, session, request, postData, w);
    var o := RequestOutcomeOf(c, session, Idle, None, Some(request), postData, w);
    var reply := w.requestTransaction.reply;
    var tx := Transact(c, session, p.request, w.requestTransaction);
    PreparationOpensNoPullBlock(c, session, request, postData, w);
    if p.result != Success {
      assert o.calls == p.calls;
    } else if tx.result != Success {
      assert o.calls == p.calls + tx.calls;
      assert forall i :: 0 <= i < |tx.calls| ==> !tx.calls[i].OpenPullBlock?;
      assert forall i :: 0 <= i < |o.calls| ==> !o.calls[i].OpenPullBlock? by {
        forall i | 0 <= i < |o.calls| ensures !o.calls[i].OpenPullBlock? {
          if i >= |p.calls| { assert o.calls[i] == tx.calls[i - |p.calls|]; }
        }
      }
    } else {
      var calls := p.calls + tx.calls;
      assert forall i :: 0 <= i < |calls| ==> !calls[i].OpenPullBlock? by {
        forall i | 0 <= i < |calls| ensures !calls[i].OpenPullBlock? {
          if i >= |p.calls| { assert calls[i] == tx.calls[i - |p.calls|]; }
        }
      }
      if reply.command != URIResponse || reply.result != Success || reply.blockId == c.invalidBlockId {
        assert o.calls == calls;
      } else if w.pullBlockSize.None? {
        assert o.calls == calls + [OpenPullBlock(reply.blockId, false)];
        assert forall i :: 0 <= i < |o.calls| ==> o.calls[i] != OpenPullBlock(reply.blockId, true) by {
          forall i | 0 <= i < |o.calls| ensures o.calls[i] != OpenPullBlock(reply.blockId, true) {
            if i < |calls| { assert o.calls[i] == calls[i]; }
          }
        }
      } else {
        assert o.calls[|calls|] == OpenPullBlock(reply.blockId, true);
      }
    }
  }

  /** Building a request never touches a pull block. */
  lemma PreparationOpensNoPullBlock(c: Constants, session: Option<uint16>, request: string, postData: Option<seq<byte>>,
                                    w: RequestWorld)
    ensures var p := PrepareRequest(c, session, request, postData, w);
      forall i :: 0 <= i < |p.calls| ==> !p.calls[i].OpenPullBlock? && !p.calls[i].ClosePullBlock?
  {
  }

  /** Decoding the reply opens at most the response's pull block, and keeps it only in `ReadResponse`. */
  lemma DecodeKeepsDiscipline(c: Constants, session: Option<uint16>, reply: Reply, pullBlockSize: Option<nat>, calls: seq<Call>)
    requires Replay(Quiescent(false), calls) == Some(Quiescent(false))
    ensures var o := DecodeResponse(c, session, reply, pullBlockSize, calls);
      Replay(Quiescent(false), o.calls) == Some(Quiescent(o.state == ReadResponse))
  {
    var o := DecodeResponse(c, session, reply, pullBlockSize, calls);
    var q := Quiescent(false);
    if reply.command == URIResponse && reply.result == Success && reply.blockId != c.invalidBlockId {
      var open := OpenPullBlock(reply.blockId, pullBlockSize.Some?);
      if pullBlockSize.Some? && pullBlockSize.value == 0 {
        ReplayOne(Quiescent(true), ClosePullBlock);
        ReplayPrepend(q, open, [ClosePullBlock]);
        assert [open] + [ClosePullBlock] == [open, ClosePullBlock];
        ReplayConcat(q, calls, [open, ClosePullBlock], q);
      } else {
        ReplayOne(q, open);
        ReplayConcat(q, calls, [open], q);
      }
    }
  }

  /** Every request keeps the call discipline and ends with no push block held and a pull block held exactly in `ReadResponse`. */
  lemma RequestKeepsDiscipline(c: Constants, session: Option<uint16>, request: Option<string>,
                               postData: Option<seq<byte>>, w: RequestWorld)
    ensures var o := RequestOutcomeOf(c, session, Idle, None, request, postData, w);
      Replay(Quiescent(false), o.calls) == Some(Quiescent(o.state == ReadResponse))
  {
    if request.Some? {
      var p := PrepareRequest(c, session, request.value, postData, w);
      PrepareKeepsDiscipline(c, session, request.value, postData, w);
      if p.result == Success {
        var tx := Transact(c, session, p.request, w.requestTransaction);
        TransactReceivesOnlyAfterSend(c, session, p.request, w.requestTransaction);
        ReplayConcat(Quiescent(false), p.calls, tx.calls, Quiescent(false));
        if tx.result == Success {
          DecodeKeepsDiscipline(c, session, w.requestTransaction.reply, w.pullBlockSize, p.calls + tx.calls);
        }
      }
    }
  }

  lemma PrepareKeepsDiscipline(c: Constants, session: Option<uint16>, request: string,
                               postData: Option<seq<byte>>, w: RequestWorld)
    ensures Replay(Quiescent(false), PrepareRequest(c, session, request, postData, w).calls) == Some(Quiescent(false))
  {
    if postData.Some? && |postData.value| > c.maxInlineDataSize {
      var data := postData.value;
      var postRequest := Container(URIPostRequestPayload(request, Truncate32(|data|)), [], c.postRequestPayloadSize);
      var tx := Transact(c, session, postRequest, w.postTransaction);
      TransactReceivesOnlyAfterSend(c, session, postRequest, w.postTransaction);
      var reply := w.postTransaction.reply;
      if tx.result == Success && reply.result == Success {
        var up := Upload(reply.blockId, data, w);
        UploadKeepsDiscipline(reply.blockId, data, w);
        ReplayConcat(Quiescent(false), tx.calls, up.calls, Quiescent(false));
      }
    }
  }

  // ---------------------------------------------------------------------------
  // The client object.

  class URIClient {
    const consts: Constants
    const session: Option<uint16>
    var state: State
    var block: Option<PullBlock>
    ghost var log: seq<Call>

    /** A pull block is held exactly in `ReadResponse`, and the log keeps the call discipline. */
    ghost predicate Valid()
      reads this
    {
      && (block.Some? <==> state == State.ReadResponse)
      && Replay(Quiescent(false), log) == Some(Quiescent(block.Some?))
    }

    constructor (consts: Constants, session: Option<uint16>)
      ensures Valid() && state == Idle && block.None? && log == []
      ensures this.consts == consts && this.session == session
    {
      this.consts := consts;
      this.session := session;
      state := Idle;
      block := None;
      log := [];
    }

    /** Puts a container on the wire: its real size for upgraded peers, the legacy size otherwise. */
    method SendURIPayload(container: Container, sendResult: Result) returns (result: Result)
      modifies this
      ensures result == sendResult
      ensures log == old(log) + [Send(container.message, WireSize(consts, session, container), sendResult)]
      ensures state == old(state) && block == old(block)
    {
      var version: nat := if session.Some? then session.value else 0;
      var payloadSize := if version >= consts.postProtocolVersion as nat then container.payloadSize else consts.legacyMaxSize;
      log := log + [Send(container.message, payloadSize, sendResult)];
      result := sendResult;
    }

    /** Receives a reply into the container; what is read from it is `reply`. */
    method ReceiveURIPayload(receiveResult: Result, reply: Reply) returns (result: Result, received: Reply)
      modifies this
      ensures result == receiveResult && received == reply
      ensures log == old(log) + [Receive(receiveResult)]
      ensures state == old(state) && block == old(block)
    {
      log := log + [Receive(receiveResult)];
      result, received := receiveResult, reply;
    }

    method TransactURIPayload(container: Container, ex: Exchange) returns (result: Result, reply: Reply)
      modifies this
      ensures result == Transact(consts, session, container, ex).result && reply == ex.reply
      ensures log == old(log) + Transact(consts, session, container, ex).calls
      ensures state == old(state) && block == old(block)
    {
      result := SendURIPayload(container, ex.sendResult);
      reply := ex.reply;
      if result == Success {
        result, reply := ReceiveURIPayload(ex.receiveResult, ex.reply);
      }
    }

    /** Hands the held pull block back to the transfer manager. */
    method ClosePullBlockHandle()
      modifies this
      ensures block.None? && state == old(state)
      ensures log == old(log) + [ClosePullBlock]
    {
      log := log + [ClosePullBlock];
      block := None;
    }

    /** Builds the request payload: inline, or after uploading the post data through a push block. */
    method BuildRequestPayload(request: string, postData: Option<seq<byte>>, world: RequestWorld)
      returns (result: Result, container: Container)
      modifies this
      ensures var p := PrepareRequest(consts, session, request, postData, world);
        && result == p.result && (result == Success ==> container == p.request)
        && log == old(log) + p.calls
      ensures state == old(state) && block == old(block)
    {
      result := UriInvalidParameters;
      container := EmptyContainer;
      if postData.None? || |postData.value| == 0 {
        container := Container(URIRequestPayload(request, NoPostData), [], consts.requestPayloadSize);
        result := Success;
      } else {
        var data := postData.value;
        if |data| <= consts.maxInlineDataSize {
          container := Container(URIRequestPayload(request, PostData(consts.invalidBlockId, TransferDataFormat.Binary, Truncate32(|data|))),
                                 [], consts.requestPayloadSize);
          container := container.(inlineData := data);
          container := container.(payloadSize := Truncate32(consts.requestPayloadSize + |data|));
          result := Success;
        } else {
          var blockRequest := Container(URIPostRequestPayload(request, Truncate32(|data|)), [], consts.postRequestPayloadSize);
          var response;
          result, response := TransactURIPayload(blockRequest, world.postTransaction);
          if result == Success {
            var pushBlockId := response.blockId;
            result := response.result;
            if result == Success {
              log := log + [OpenPushBlock(pushBlockId, |data|, world.pushBlockOpens)];
              if world.pushBlockOpens {
                result := world.pushWrite;
                log := log + [WritePushBlock(data, result)];
                if result == Success {
                  result := world.pushFinalize;
                  log := log + [FinalizePushBlock(result)];
                }
                log := log + [ClosePushBlock];
              } else {
                result := UriFailedToAcquirePostBlock;
              }
            }
            if result == Success {
              container := Container(URIRequestPayload(request, PostData(pushBlockId, TransferDataFormat.Binary, Truncate32(|data|))),
                                     [], consts.requestPayloadSize);
            }
          }
        }
      }
    }

    /** Decodes the reply to a transacted request, opening the response's pull block when there is one. */
    method OpenResponse(reply: Reply, header: URIResponseHeader?, pullBlockSize: Option<nat>) returns (result: Result)
      requires state == Idle && block.None?
      requires header != null ==>
        header.responseDataSizeInBytes == DefaultHeader.sizeInBytes && header.responseDataFormat == DefaultHeader.format
      modifies this, header
      ensures var o := DecodeResponse(consts, session, reply, pullBlockSize, old(log));
        && result == o.result && state == o.state && block == o.block && log == o.calls
        && (header != null ==>
              header.responseDataSizeInBytes == o.header.value.sizeInBytes
              && header.responseDataFormat == o.header.value.format)
    {
      result := Success;
      if reply.command == URIResponse {
        result := reply.result;
        if result == Success {
          if reply.blockId != consts.invalidBlockId {
            log := log + [OpenPullBlock(reply.blockId, pullBlockSize.Some?)];
            if pullBlockSize.Some? {
              block := Some(PullBlock(reply.blockId, pullBlockSize.value));
              var blockSize := block.value.dataSize;
              if header != null {
                var responseDataFormat := URIDataFormat.Text;
                if SessionVersion(session) >= consts.responseFormatsVersion as nat {
                  responseDataFormat := ResponseFormatToUriFormat(reply.format);
                }
                header.responseDataSizeInBytes := blockSize;
                header.responseDataFormat := responseDataFormat;
              }
              if blockSize > 0 {
                state := State.ReadResponse;
              } else {
                ClosePullBlockHandle();
              }
            } else {
              result := UriFailedToOpenResponseBlock;
            }
          }
        }
      }
    }

    method RequestURI(request: Option<string>, header: URIResponseHeader?, postData: Option<seq<byte>>, world: RequestWorld)
      returns (result: Result)
      requires Valid()
      modifies this, header
      ensures Valid()
      ensures var o := RequestOutcomeOf(consts, session, old(state), old(block), request, postData, world);
        && result == o.result && state == o.state && block == o.block && log == old(log) + o.calls
        && (header != null && o.header.Some? ==>
              header.responseDataSizeInBytes == o.header.value.sizeInBytes
              && header.responseDataFormat == o.header.value.format)
        && (header != null && o.header.None? ==>
              header.responseDataSizeInBytes == old(header.responseDataSizeInBytes)
              && header.responseDataFormat == old(header.responseDataFormat))
    {
      ghost var log0 := log;
      result := UriInvalidParameters;
      if state == Idle && request.Some? {
        if header != null {
          header.responseDataSizeInBytes := 0;
          header.responseDataFormat := URIDataFormat.Unknown;
        }

        ghost var prep := PrepareRequest(consts, session, request.value, postData, world);
        ghost var o := TransactPrepared(consts, session, prep, world);
        assert o == RequestOutcomeOf(consts, session, Idle, None, request, postData, world);

        var container;
        result, container := BuildRequestPayload(request.value, postData, world);

        if result == Success {
          var reply;
          ghost var tx := Transact(consts, session, prep.request, world.requestTransaction);
          result, reply := TransactURIPayload(container, world.requestTransaction);
          assert log == log0 + (prep.calls + tx.calls);
          if result == Success {
            result := OpenResponse(reply, header, world.pullBlockSize);
            DecodeResponseAppends(consts, session, reply, world.pullBlockSize, log0, prep.calls + tx.calls);
          }
        }

        assert log == log0 + o.calls;
        RequestKeepsDiscipline(consts, session, request, postData, world);
        ReplayConcat(Quiescent(false), log0, o.calls, Quiescent(false));
        OutcomeBlockIffReading(consts, session, request, postData, world);
      }
    }

    /** Reads the next part of the response; the end of the stream or an error closes the block and returns to `Idle`. */
    method ReadResponse(bufferSize: nat, answer: ReadAnswer) returns (result: Result, bytesRead: seq<byte>)
      requires Valid()
      modifies this
      ensures Valid()
      ensures old(state) == Idle ==>
        result == UriInvalidParameters && bytesRead == [] && state == Idle && block == old(block) && log == old(log)
      ensures old(state) == State.ReadResponse ==>
        var terminal := answer.result == EndOfStream || answer.result == Error;
        && result == answer.result && bytesRead == answer.data
        && log == old(log) + [ReadPullBlock(bufferSize, answer.result)] + (if terminal then [ClosePullBlock] else [])
        && (terminal ==> state == Idle && block.None?)
        && (!terminal ==> state == State.ReadResponse && block == old(block))
    {
      result := UriInvalidParameters;
      bytesRead := [];
      if state == State.ReadResponse {
        result, bytesRead := answer.result, answer.data;
        log := log + [ReadPullBlock(bufferSize, result)];
        ReplayConcat(Quiescent(false), old(log), [ReadPullBlock(bufferSize, result)], Quiescent(true));
        if result == EndOfStream || result == Error {
          state := Idle;
          ghost var mid := log;
          ClosePullBlockHandle();
          ReplayConcat(Quiescent(false), mid, [ClosePullBlock], Quiescent(true));
        }
      }
    }

    /** Abandons the response being read: closes the block and returns to `Idle`. */
    method AbortRequest() returns (result: Result)
      requires Valid()
      modifies this
      ensures Valid()
      ensures old(state) == Idle ==> result == UriInvalidParameters && state == Idle && block == old(block) && log == old(log)
      ensures old(state) == State.ReadResponse ==>
        result == Success && state == Idle && block.None? && log == old(log) + [ClosePullBlock]
    {
      result := UriInvalidParameters;
      if state == State.ReadResponse {
        state := Idle;
        ClosePullBlockHandle();
        ReplayConcat(Quiescent(false), old(log), [ClosePullBlock], Quiescent(true));
        result := Success;
      }
    }

    /** Closes any held block and zeroes the request context, from any state. */
    method ResetState()
      requires Valid()
      modifies this
      ensures Valid()
      ensures state == Idle && block.None?
      ensures log == old(log) + (if old(block).Some? then [ClosePullBlock] else [])
    {
      if block.Some? {
        ClosePullBlockHandle();
        ReplayConcat(Quiescent(false), old(log), [ClosePullBlock], Quiescent(true));
      }
      state := Idle;
      block := None;
    }
  }

  /** After the end of the stream (or an error) a further read is refused and changes nothing. */
  method ReadAfterEndOfStream(client: URIClient, bufferSize: nat, last: ReadAnswer, next: ReadAnswer)
    returns (first: Result, second: Result)
    requires client.Valid() && client.state == State.ReadResponse
    requires last.result == EndOfStream || last.result == Error
    modifies client
    ensures first == last.result && second == UriInvalidParameters
    ensures client.Valid() && client.state == Idle && client.block.None?
  {
    var data;
    first, data := client.ReadResponse(bufferSize, last);
    second, data := client.ReadResponse(bufferSize, next);
  }
}

// The service-facing contract of the URI protocol: the result codes, the data
// formats, the post-data view handed to a service, the response header filled
// in by the client and the service capability registered with the server.

module UriInterface {

  type byte = x: int | 0 <= x < 0x100
  type uint16 = x: int | 0 <= x < 0x1_0000
  type uint32 = x: int | 0 <= x < 0x1_0000_0000
  type uint64 = x: int | 0 <= x < 0x1_0000_0000_0000_0000

  /** A `static_cast<uint32>` of a size: keeps the low 32 bits. */
  function Truncate32(n: nat): (r: uint32)
    ensures n < 0x1_0000_0000 ==> r == n
  {
    n % 0x1_0000_0000
  }

  datatype Option<+T> = None | Some(value: T)

  /** The result codes the URI components produce or pass through. */
  datatype Result =
    | Success
    | Error
    | NotReady
    | Unavailable
    | Rejected
    | EndOfStream
    | Aborted
    | UriServiceRegistrationError
    | UriInvalidParameters
    | UriInvalidPostDataBlock
    | UriInvalidPostDataSize
    | UriFailedToAcquirePostBlock
    | UriFailedToOpenResponseBlock

  /** The maximum length of a service name. */
  const kMaxUriServiceNameLength: nat := 128

  /** `URIDataFormat`, a 32-bit enum numbered from 0. */
  datatype URIDataFormat = Unknown | Text | Binary | Count
  {
    /** The numeric value of the enumerator. */
    function Code(): uint32
    {
      match this
      case Unknown => 0
      case Text => 1
      case Binary => 2
      case Count => 3
    }
  }

  /** The enumerator with a given numeric value, if there is one. */
  function URIDataFormatFromCode(n: nat): (r: Option<URIDataFormat>)
    ensures r.Some? <==> n < 4
  {
    if n == 0 then Some(URIDataFormat.Unknown)
    else if n == 1 then Some(URIDataFormat.Text)
    else if n == 2 then Some(URIDataFormat.Binary)
    else if n == 3 then Some(URIDataFormat.Count)
    else None
  }

  /** The numeric values identify the enumerators: decoding a value gives back its enumerator. */
  lemma FormatCodeRoundTrip(f: URIDataFormat, n: nat)
    ensures URIDataFormatFromCode(f.Code()) == Some(f)
    ensures URIDataFormatFromCode(n).Some? ==> URIDataFormatFromCode(n).value.Code() == n
  {
  }

  /** The POST metadata of a request: a non-owning view of the data, its size and its format. */
  datatype PostDataInfo = PostDataInfo(data: Option<seq<byte>>, size: uint32, format: URIDataFormat)

  /** The zero-initialised `PostDataInfo`. */
  function DefaultPostDataInfo(): PostDataInfo
  {
    PostDataInfo(None, 0, URIDataFormat.Unknown)
  }

  /**
   * Zeroing every byte of a `PostDataInfo` gives exactly the default value:
   * a null data view, size 0 and the format whose numeric value is 0.
   */
  lemma ZeroedPostDataInfoIsDefault(p: PostDataInfo)
    ensures p == DefaultPostDataInfo() <==> p.data.None? && p.size == 0 && p.format.Code() == 0
  {
  }

  /** `URIResponseHeader`: written by the client through a caller-supplied pointer. */
  class URIResponseHeader {
    var responseDataSizeInBytes: nat
    var responseDataFormat: URIDataFormat

    constructor ()
      ensures responseDataSizeInBytes == 0 && responseDataFormat == URIDataFormat.Unknown
    {
      responseDataSizeInBytes := 0;
      responseDataFormat := URIDataFormat.Unknown;
    }
  }

  /**
   * `IService`: a named, versioned request handler. The server only borrows it,
   * so it is a reference. `postSizeLimit` is the service's own override of
   * `QueryPostSizeLimit`; `None` means the service keeps the default.
   */
  class Service {
    const name: string
    const version: uint16
    const postSizeLimit: Option<string -> nat>

    constructor (name: string, version: uint16, postSizeLimit: Option<string -> nat>)
      ensures this.name == name && this.version == version && this.postSizeLimit == postSizeLimit
    {
      this.name := name;
      this.version := version;
      this.postSizeLimit := postSizeLimit;
    }

    /** The largest post data, in bytes, the service accepts for a request with these arguments. */
    function QueryPostSizeLimit(arguments: string): nat
    {
      match postSizeLimit
      case None => 0
      case Some(limit) => limit(arguments)
    }
  }

  /** By default a service accepts no post data at all. */
  lemma DefaultServiceAcceptsNoPostData(service: Service, arguments: string, size: nat)
    requires service.postSizeLimit.None?
    ensures size <= service.QueryPostSizeLimit(arguments) <==> size == 0
  {
  }
}

/** The values the transformer reads and produces: response definitions, headers,
    bodies, transformer parameters, requests and the serve event. */
module Http {
  import opened Results

  /** One header key with its ordered values (an `HttpHeader`). */
  datatype Header = Header(key: string, values: seq<string>)

  /** A response body: none, text (flagged as JSON or not) or binary bytes. */
  datatype Body = Absent | Text(content: string, json: bool) | Binary(bytes: seq<bv8>)

  /** A transformer parameter value; `Parameters` maps names to them. */
  datatype Param = BoolParam(flag: bool) | TextParam(text: string) | NumberParam(number: int)

  type Parameters = map<string, Param>

  /** The fields of a response definition the transformer reads or writes. `None`
      stands for Java's null. */
  datatype ResponseDefinition = ResponseDefinition(
    status: int,
    body: Body,
    bodyFileName: Option<string>,
    headers: Option<seq<Header>>,
    proxyBaseUrl: Option<string>,
    additionalProxyRequestHeaders: Option<seq<Header>>,
    transformerParameters: Option<Parameters>)
  {
    /** A text (non-binary) body is present. */
    predicate SpecifiesTextBodyContent(): (b: bool)
      ensures b <==> body != Absent && !body.Binary?
    {
      body.Text?
    }

    /** A body file is named and no body is given inline; such a definition never also
        specifies text body content. */
    predicate SpecifiesBodyFile(): (b: bool)
      ensures b ==> bodyFileName.Some? && !SpecifiesTextBodyContent()
    {
      bodyFileName.Some? && body.Absent?
    }
  }

  /** The incoming request, kept opaque apart from a few facts. */
  datatype Request = Request(verb: string, url: string, headers: seq<Header>)

  /** The file source of the server, seen from outside: the text of the file at a path,
      or nothing when it cannot be read. */
  datatype FileSource = FileSource(textFile: string -> Option<string>)

  /** A diagnostic record attached to a serve event. */
  datatype SubEvent = ErrorEvent(message: string)

  const ContentTypeKey := "Content-Type"
  const ServerErrorStatus := 500

  /** `serverError().withHeader(Content-Type, text/plain).withBody(message).build()`. */
  function ServerError(message: string): (d: ResponseDefinition)
    ensures d.status == ServerErrorStatus
    ensures d.headers == Some([Header(ContentTypeKey, ["text/plain"])])
    ensures d.body == Text(message, false)
    ensures d.bodyFileName.None? && d.proxyBaseUrl.None? && d.additionalProxyRequestHeaders.None?
  {
    ResponseDefinition(ServerErrorStatus, Text(message, false), None,
                       Some([Header(ContentTypeKey, ["text/plain"])]), None, None, None)
  }

  /** `parameters.getBoolean(key, default)`: the default when the key is absent, the flag
      when it holds a boolean, and a (non-template) failure when it holds anything else. */
  function GetBoolean(params: Parameters, key: string, default: bool): (r: Result<bool>)
    ensures key !in params ==> r == Ok(default)
    ensures key in params && params[key].BoolParam? ==> r == Ok(params[key].flag)
    ensures key in params && !params[key].BoolParam? ==> r.Err? && r.failure.OtherFailure?
  {
    if key !in params then Ok(default)
    else match params[key]
      case BoolParam(b) => Ok(b)
      case _ => Err(OtherFailure(key + " is not of type Boolean"))
  }

  /** A served request: the request, the definition chosen for it, the path template of
      the matched stub (if its URL matcher has one), and the sub-events recorded so far. */
  class ServeEvent {
    const request: Request
    const responseDefinition: ResponseDefinition
    const pathTemplate: Option<string>
    var subEvents: seq<SubEvent>

    constructor (request: Request, responseDefinition: ResponseDefinition, pathTemplate: Option<string>)
      ensures this.request == request && this.responseDefinition == responseDefinition
      ensures this.pathTemplate == pathTemplate && subEvents == []
    {
      this.request := request;
      this.responseDefinition := responseDefinition;
      this.pathTemplate := pathTemplate;
      subEvents := [];
    }

    method AppendSubEvent(event: SubEvent)
      modifies this
      ensures subEvents == old(subEvents) + [event]
    {
      subEvents := subEvents + [event];
    }
  }
}

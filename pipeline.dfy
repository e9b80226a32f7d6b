/** What one `transform` computes, as functions of its inputs and of the cache it starts
    from: the steps in the order the transformer takes them, each passing on the cache, and
    the error boundary around them. */
module Pipeline {
  import opened Results
  import opened Http
  import opened ContextModel
  import opened Templates
  import opened ErrorMessages
  import opened ProxyHeaders

  /** The `addExtraModelElements` hook: extra model entries computed from the request, the
      definition, the file source and the parameters. */
  type ExtraModelHook = (Request, ResponseDefinition, FileSource, Parameters) -> seq<Entry>

  /** The hook as the transformer defines it: no extra entries. */
  function NoExtraModelElements(): (hook: ExtraModelHook)
    ensures forall r, d, f, p :: hook(r, d, f, p) == []
  {
    (r: Request, d: ResponseDefinition, f: FileSource, p: Parameters) => []
  }

  const DisableBodyFileTemplating := "disableBodyFileTemplating"

  /** `files.getTextFileNamed(path).readContentsAsString()`: a file that cannot be read is a
      failure that is not a template failure. */
  function ReadTextFile(files: FileSource, path: string): (r: Result<string>)
    ensures files.textFile(path).Some? ==> r == Ok(files.textFile(path).value)
    ensures files.textFile(path).None? ==> r.Err? && r.failure.OtherFailure?
  {
    match files.textFile(path)
    case Some(text) => Ok(text)
    case None => Err(OtherFailure("File not found: " + path))
  }

  /** The values of header `key`, value `i` rendered through the cache under
      `HeaderValue(def, key, i)`, stopping at the first failure. */
  function RenderValues(hb: Handlebars, cache: Cache, def: ResponseDefinition, key: string,
                        values: seq<string>, model: Model): (s: Step<seq<string>>)
    ensures Extends(s.cache, cache)
    ensures s.result.Ok? ==> |s.result.value| == |values|
    decreases |values|
  {
    if values == [] then Step(Ok([]), cache)
    else
      var n := |values|;
      var front := RenderValues(hb, cache, def, key, values[..n - 1], model);
      match front.result
      case Err(f) => Step(Err(f), front.cache)
      case Ok(done) =>
        var v := RenderCached(hb, front.cache, HeaderValue(def, key, n - 1), values[n - 1], model);
        match v.result
        case Err(f) => Step(Err(f), v.cache)
        case Ok(text) => Step(Ok(done + [text]), v.cache)
  }

  /** One header with its values rendered and its key kept. */
  function RenderHeader(hb: Handlebars, cache: Cache, def: ResponseDefinition, h: Header, model: Model): (s: Step<Header>)
    ensures Extends(s.cache, cache)
  {
    var r := RenderValues(hb, cache, def, h.key, h.values, model);
    match r.result
    case Err(f) => Step(Err(f), r.cache)
    case Ok(values) => Step(Ok(Header(h.key, values)), r.cache)
  }

  /** A list of headers rendered one after the other, stopping at the first failure. */
  function RenderHeaders(hb: Handlebars, cache: Cache, def: ResponseDefinition, hs: seq<Header>, model: Model): (s: Step<seq<Header>>)
    ensures Extends(s.cache, cache)
    ensures s.result.Ok? ==> |s.result.value| == |hs|
    decreases |hs|
  {
    if hs == [] then Step(Ok([]), cache)
    else
      var n := |hs|;
      var front := RenderHeaders(hb, cache, def, hs[..n - 1], model);
      match front.result
      case Err(f) => Step(Err(f), front.cache)
      case Ok(done) =>
        var h := RenderHeader(hb, front.cache, def, hs[n - 1], model);
        match h.result
        case Err(f) => Step(Err(f), h.cache)
        case Ok(header) => Step(Ok(done + [header]), h.cache)
  }

  /** The body: an inline text body is rendered through the cache and keeps its JSON flag;
      otherwise a body file name is rendered without the cache, and then either kept as
      the new file name (when `disableBodyFileTemplating` is set) or the file's text is
      rendered through the cache as a plain text body. */
  function BodyStep(hb: Handlebars, files: FileSource, cache: Cache, def: ResponseDefinition,
                    params: Parameters, model: Model, draft: ResponseDefinition): (s: Step<ResponseDefinition>)
    ensures Extends(s.cache, cache)
  {
    if def.SpecifiesTextBodyContent() then
      var b := RenderCached(hb, cache, InlineBody(def), def.body.content, model);
      match b.result
      case Err(f) => Step(Err(f), b.cache)
      case Ok(text) => Step(Ok(draft.(body := Text(text, def.body.json))), b.cache)
    else if def.SpecifiesBodyFile() then
      match RenderUncached(hb, def.bodyFileName.value, model)
      case Err(f) => Step(Err(f), cache)
      case Ok(path) =>
        match GetBoolean(params, DisableBodyFileTemplating, false)
        case Err(f) => Step(Err(f), cache)
        case Ok(disabled) =>
          if disabled then Step(Ok(draft.(bodyFileName := Some(path))), cache)
          else
            match ReadTextFile(files, path)
            case Err(f) => Step(Err(f), cache)
            case Ok(content) =>
              var b := RenderCached(hb, cache, FileBody(def, path), content, model);
              match b.result
              case Err(f) => Step(Err(f), b.cache)
              case Ok(text) => Step(Ok(draft.(body := Text(text, false))), b.cache)
    else Step(Ok(draft), cache)
  }

  /** The response headers, when the definition has any, rendered and put in place. */
  function HeadersStep(hb: Handlebars, cache: Cache, def: ResponseDefinition, model: Model,
                       draft: ResponseDefinition): (s: Step<ResponseDefinition>)
    ensures Extends(s.cache, cache)
  {
    if def.headers.None? then Step(Ok(draft), cache)
    else
      var h := RenderHeaders(hb, cache, def, def.headers.value, model);
      match h.result
      case Err(f) => Step(Err(f), h.cache)
      case Ok(headers) => Step(Ok(draft.(headers := Some(headers))), h.cache)
  }

  /** What the proxy builder builds: the proxy base URL and the attached request headers,
      none when nothing was attached. */
  function ProxyBuilt(draft: ResponseDefinition, url: string, attached: seq<Header>): (d: ResponseDefinition)
    ensures d.proxyBaseUrl == Some(url)
    ensures attached == [] ==> d.additionalProxyRequestHeaders.None?
    ensures attached != [] ==> d.additionalProxyRequestHeaders == Some(attached)
    ensures d.(proxyBaseUrl := draft.proxyBaseUrl, additionalProxyRequestHeaders := draft.additionalProxyRequestHeaders) == draft
  {
    draft.(proxyBaseUrl := Some(url),
           additionalProxyRequestHeaders := if attached == [] then None else Some(attached))
  }

  /** The proxy base URL, when the definition has one, rendered through the cache; its
      additional request headers, when it has any, rendered under the same
      `HeaderValue(def, key, index)` keys as the response headers and attached one value
      per key. */
  function ProxyStep(hb: Handlebars, cache: Cache, def: ResponseDefinition, model: Model,
                     draft: ResponseDefinition): (s: Step<ResponseDefinition>)
    ensures Extends(s.cache, cache)
  {
    if def.proxyBaseUrl.None? then Step(Ok(draft), cache)
    else
      var u := RenderCached(hb, cache, ProxyUrl(def), def.proxyBaseUrl.value, model);
      match u.result
      case Err(f) => Step(Err(f), u.cache)
      case Ok(url) =>
        if def.additionalProxyRequestHeaders.None? then Step(Ok(ProxyBuilt(draft, url, [])), u.cache)
        else
          var h := RenderHeaders(hb, u.cache, def, def.additionalProxyRequestHeaders.value, model);
          match h.result
          case Err(f) => Step(Err(f), h.cache)
          case Ok(headers) => Step(Ok(ProxyBuilt(draft, url, Folded(headers))), h.cache)
  }

  /** The steps after the model is built, starting from a copy of the definition. */
  function RenderSteps(hb: Handlebars, files: FileSource, cache: Cache, def: ResponseDefinition,
                       params: Parameters, model: Model): (s: Step<ResponseDefinition>)
    ensures Extends(s.cache, cache)
  {
    var b := BodyStep(hb, files, cache, def, params, model, def);
    match b.result
    case Err(f) => Step(Err(f), b.cache)
    case Ok(d1) =>
      var h := HeadersStep(hb, b.cache, def, model, d1);
      match h.result
      case Err(f) => Step(Err(f), h.cache)
      case Ok(d2) => ProxyStep(hb, h.cache, def, model, d2)
  }

  /** The body of the `try` block: resolve the parameters, build the model, then render. */
  function Render(hb: Handlebars, files: FileSource, hook: ExtraModelHook, cache: Cache,
                  request: Request, def: ResponseDefinition, pathTemplate: Option<string>): (s: Step<ResponseDefinition>)
    ensures Extends(s.cache, cache)
  {
    var params := ResolveParameters(def);
    match BuildModel(params, RequestModel(request, pathTemplate), hook(request, def, files, params))
    case Err(f) => Step(Err(f), cache)
    case Ok(model) => RenderSteps(hb, files, cache, def, params, model)
  }

  /** What `transform` does: a definition returned, or a failure thrown on. */
  datatype Outcome = Returned(definition: ResponseDefinition) | Thrown(failure: Failure)

  /** The outcome, the cache afterwards, and the sub-events appended to the serve event. */
  datatype TransformResult = TransformResult(outcome: Outcome, cache: Cache, events: seq<SubEvent>)

  /** The error boundary: a template failure becomes a 500 plain-text response whose body
      is the cleaned message, recorded as one error sub-event; any other failure is thrown
      on and records nothing. */
  function Transformed(hb: Handlebars, files: FileSource, hook: ExtraModelHook, cache: Cache,
                       request: Request, def: ResponseDefinition, pathTemplate: Option<string>): (t: TransformResult)
    ensures |t.events| <= 1
    ensures t.events != [] ==> t.outcome == Returned(ServerError(t.events[0].message)) && '\n' !in t.events[0].message
    ensures t.outcome.Thrown? ==> t.events == [] && t.outcome.failure.OtherFailure?
  {
    var s := Render(hb, files, hook, cache, request, def, pathTemplate);
    match s.result
    case Ok(d) => TransformResult(Returned(d), s.cache, [])
    case Err(HandlebarsFailure(m)) =>
      var message := CleanUpHandlebarsErrorMessage(m);
      TransformResult(Returned(ServerError(message)), s.cache, [ErrorEvent(message)])
    case Err(OtherFailure(m)) => TransformResult(Thrown(OtherFailure(m)), s.cache, [])
  }
}

/** Properties of one transform: how the body is chosen, how proxy headers meet the
    response headers in the cache, and what leaves the error boundary. */
module TransformProperties {
  import opened Results
  import opened Http
  import opened ContextModel
  import opened Templates
  import opened ErrorMessages
  import opened Pipeline
  import opened ProxyHeaders
  import opened HeaderRendering

  /** An inline text body wins over a body file: the file source is never consulted, the
      body becomes what the template cached under `InlineBody(def)` renders to, it keeps
      the JSON flag of the original body, and nothing else of the draft changes. */
  lemma InlineBodyTakesPrecedence(hb: Handlebars, files: FileSource, otherFiles: FileSource, cache: Cache,
                                  def: ResponseDefinition, params: Parameters, model: Model, draft: ResponseDefinition)
    requires def.SpecifiesTextBodyContent()
    ensures BodyStep(hb, files, cache, def, params, model, draft) == BodyStep(hb, otherFiles, cache, def, params, model, draft)
    ensures var s := BodyStep(hb, files, cache, def, params, model, draft);
            s.result.Ok? ==>
              && s.result.value == draft.(body := s.result.value.body)
              && s.result.value.body == Text(s.result.value.body.content, def.body.json)
              && InlineBody(def) in s.cache
              && hb.apply(s.cache[InlineBody(def)], model) == Ok(s.result.value.body.content)
  {
  }

  /** With `disableBodyFileTemplating` set, the rendered file name replaces the old one,
      the file is never read, and the cache is left alone (the name is compiled uncached). */
  lemma BodyFileTemplatingDisabled(hb: Handlebars, files: FileSource, otherFiles: FileSource, cache: Cache,
                                   def: ResponseDefinition, params: Parameters, model: Model, draft: ResponseDefinition)
    requires def.SpecifiesBodyFile()
    requires DisableBodyFileTemplating in params && params[DisableBodyFileTemplating] == BoolParam(true)
    ensures BodyStep(hb, files, cache, def, params, model, draft) == BodyStep(hb, otherFiles, cache, def, params, model, draft)
    ensures var s := BodyStep(hb, files, cache, def, params, model, draft);
            var name := RenderUncached(hb, def.bodyFileName.value, model);
            && s.cache == cache
            && (s.result.Ok? <==> name.Ok?)
            && (s.result.Ok? ==> s.result.value == draft.(bodyFileName := Some(name.value)))
  {
  }

  /** Otherwise (the flag unset or false) the file at the rendered name is read, and its
      text, rendered through the cache under `FileBody(def, name)`, becomes a plain text
      body; only that key can be added to the cache. */
  lemma BodyFileRendered(hb: Handlebars, files: FileSource, cache: Cache, def: ResponseDefinition,
                         params: Parameters, model: Model, draft: ResponseDefinition, path: string, content: string)
    requires def.SpecifiesBodyFile()
    requires DisableBodyFileTemplating !in params || params[DisableBodyFileTemplating] == BoolParam(false)
    requires RenderUncached(hb, def.bodyFileName.value, model) == Ok(path)
    requires files.textFile(path) == Some(content)
    ensures var s := BodyStep(hb, files, cache, def, params, model, draft);
            && s.cache.Keys <= cache.Keys + {FileBody(def, path)}
            && (s.result.Ok? ==>
                  && s.result.value == draft.(body := Text(s.result.value.body.content, false))
                  && FileBody(def, path) in s.cache
                  && hb.apply(s.cache[FileBody(def, path)], model) == Ok(s.result.value.body.content))
            && (s.result.Err? ==> s.result.failure == RenderCached(hb, cache, FileBody(def, path), content, model).result.failure)
  {
  }

  /** A body file that cannot be read, and a `disableBodyFileTemplating` parameter that is
      not a boolean, are failures other than template failures, and leave the cache alone. */
  lemma BodyFileFailures(hb: Handlebars, files: FileSource, cache: Cache, def: ResponseDefinition,
                         params: Parameters, model: Model, draft: ResponseDefinition, path: string)
    requires def.SpecifiesBodyFile()
    requires RenderUncached(hb, def.bodyFileName.value, model) == Ok(path)
    requires || (DisableBodyFileTemplating in params && !params[DisableBodyFileTemplating].BoolParam?)
             || (GetBoolean(params, DisableBodyFileTemplating, false) == Ok(false) && files.textFile(path).None?)
    ensures var s := BodyStep(hb, files, cache, def, params, model, draft);
            s.result.Err? && s.result.failure.OtherFailure? && s.cache == cache
  {
  }

  /** A definition with neither an inline body nor a body file goes through the body step
      untouched: the draft and the cache come back as they went in. */
  lemma NeitherBodyPassesThrough(hb: Handlebars, files: FileSource, cache: Cache, def: ResponseDefinition,
                                 params: Parameters, model: Model, draft: ResponseDefinition)
    requires !def.SpecifiesTextBodyContent() && !def.SpecifiesBodyFile()
    ensures BodyStep(hb, files, cache, def, params, model, draft) == Step(Ok(draft), cache)
  {
  }

  /** Rendering a definition with neither an inline body nor a body file never touches its
      body: a successful render keeps the definition's body and body file name, and the
      render is the headers step and the proxy step alone. */
  lemma NeitherBodyKeepsBody(hb: Handlebars, files: FileSource, cache: Cache, def: ResponseDefinition,
                             params: Parameters, model: Model)
    requires !def.SpecifiesTextBodyContent() && !def.SpecifiesBodyFile()
    ensures var h := HeadersStep(hb, cache, def, model, def);
            RenderSteps(hb, files, cache, def, params, model)
            == if h.result.Ok? then ProxyStep(hb, h.cache, def, model, h.result.value) else h
    ensures var s := RenderSteps(hb, files, cache, def, params, model);
            s.result.Ok? ==> s.result.value.body == def.body && s.result.value.bodyFileName == def.bodyFileName
  {
    NeitherBodyPassesThrough(hb, files, cache, def, params, model, def);
    var h := HeadersStep(hb, cache, def, model, def);
    HeadersStepResult(hb, cache, def, model, def);
    if h.result.Ok? {
      ProxyStepResult(hb, h.cache, def, model, h.result.value);
    }
  }

  /** A definition with no text body, no body file, no headers and no proxy base URL
      comes back as it went in, and the cache is untouched, for every hook whose extra
      entries have distinct keys and use neither reserved name (the model then builds). */
  lemma NothingToRenderPassesThrough(hb: Handlebars, files: FileSource, hook: ExtraModelHook, cache: Cache,
                                     request: Request, def: ResponseDefinition, pathTemplate: Option<string>)
    requires !def.SpecifiesTextBodyContent() && !def.SpecifiesBodyFile()
    requires def.headers.None? && def.proxyBaseUrl.None?
    requires var extras := hook(request, def, files, ResolveParameters(def));
             DistinctKeys(extras) && !HasKey(extras, ParametersKey) && !HasKey(extras, RequestKey)
    ensures Transformed(hb, files, hook, cache, request, def, pathTemplate)
            == TransformResult(Returned(def), cache, [])
  {
    var params := ResolveParameters(def);
    BuildModelSucceedsIffNoReservedKey(params, RequestModel(request, pathTemplate), hook(request, def, files, params));
  }

  /** The default hook adds no entry, so with it a definition with nothing to render always
      comes back as it went in. */
  lemma NothingToRenderPassesThroughByDefault(hb: Handlebars, files: FileSource, cache: Cache,
                                              request: Request, def: ResponseDefinition, pathTemplate: Option<string>)
    requires !def.SpecifiesTextBodyContent() && !def.SpecifiesBodyFile()
    requires def.headers.None? && def.proxyBaseUrl.None?
    ensures Transformed(hb, files, NoExtraModelElements(), cache, request, def, pathTemplate)
            == TransformResult(Returned(def), cache, [])
  {
    var hook := NoExtraModelElements();
    var extras := hook(request, def, files, ResolveParameters(def));
    assert extras == [];
    assert !HasKey(extras, ParametersKey) && !HasKey(extras, RequestKey);
    NothingToRenderPassesThrough(hb, files, hook, cache, request, def, pathTemplate);
  }

  /** An extra model entry named `parameters` or `request` makes building the model fail;
      the failure is thrown on, before any template is touched, and records nothing. */
  lemma ReservedModelKeyIsThrown(hb: Handlebars, files: FileSource, hook: ExtraModelHook, cache: Cache,
                                 request: Request, def: ResponseDefinition, pathTemplate: Option<string>)
    requires var extras := hook(request, def, files, ResolveParameters(def));
             DistinctKeys(extras) && (HasKey(extras, ParametersKey) || HasKey(extras, RequestKey))
    ensures var t := Transformed(hb, files, hook, cache, request, def, pathTemplate);
            t.outcome.Thrown? && t.cache == cache && t.events == []
  {
    var params := ResolveParameters(def);
    BuildModelSucceedsIffNoReservedKey(params, RequestModel(request, pathTemplate), hook(request, def, files, params));
  }

  /** A template failure anywhere ends in the same 500 response: its body is the cleaned
      message, its one header is `Content-Type: text/plain`, nothing rendered before the
      failure reaches it, and the serve event gets that same message once. */
  lemma TemplateFailureIsContained(hb: Handlebars, files: FileSource, hook: ExtraModelHook, cache: Cache,
                                   request: Request, def: ResponseDefinition, pathTemplate: Option<string>, message: string)
    requires Render(hb, files, hook, cache, request, def, pathTemplate).result == Err(HandlebarsFailure(message))
    ensures var t := Transformed(hb, files, hook, cache, request, def, pathTemplate);
            var cleaned := CleanUpHandlebarsErrorMessage(message);
            && t.outcome.Returned?
            && t.outcome.definition.status == ServerErrorStatus
            && t.outcome.definition.headers == Some([Header(ContentTypeKey, ["text/plain"])])
            && t.outcome.definition.body == Text(cleaned, false)
            && t.outcome.definition.proxyBaseUrl.None?
            && t.events == [ErrorEvent(cleaned)]
            && '\n' !in cleaned
  {
  }

  /** A syntax error in an inline body ends in the 500 response even when the headers
      would render: the header templates are never compiled and the cache is unchanged. */
  lemma BodySyntaxErrorStopsEverything(hb: Handlebars, files: FileSource, cache: Cache,
                                       request: Request, def: ResponseDefinition, pathTemplate: Option<string>, message: string)
    requires def.SpecifiesTextBodyContent() && InlineBody(def) !in cache
    requires hb.compileError(def.body.content) == Some(HandlebarsFailure(message))
    ensures Transformed(hb, files, NoExtraModelElements(), cache, request, def, pathTemplate)
            == TransformResult(Returned(ServerError(CleanUpHandlebarsErrorMessage(message))), cache,
                               [ErrorEvent(CleanUpHandlebarsErrorMessage(message))])
  {
    var params := ResolveParameters(def);
    var hook := NoExtraModelElements();
    assert hook(request, def, files, params) == [];
    DefaultModel(params, RequestModel(request, pathTemplate));
  }

  /** Proxy request headers share the `HeaderValue(def, key, index)` keys of the response
      headers. A definition with response header `k: v` and proxy request header `k: w`
      starting from an empty cache sends `k` with `v` rendered in both places: the proxy
      header text `w` is never compiled, whatever it says. */
  lemma ProxyHeaderReusesResponseHeaderTemplate(hb: Handlebars, files: FileSource, def: ResponseDefinition,
                                                params: Parameters, model: Model, k: string, v: string, w: string, url: string)
    requires def.body.Absent? && def.bodyFileName.None?
    requires def.headers == Some([Header(k, [v])])
    requires def.proxyBaseUrl == Some(url) && def.additionalProxyRequestHeaders == Some([Header(k, [w])])
    requires hb.compileError(v).None? && hb.compileError(url).None?
    requires hb.apply(Template(v), model).Ok? && hb.apply(Template(url), model).Ok?
    ensures var s := RenderSteps(hb, files, map[], def, params, model);
            var rendered := hb.apply(Template(v), model).value;
            && s.result.Ok?
            && s.result.value.headers == Some([Header(k, [rendered])])
            && s.result.value.proxyBaseUrl == Some(hb.apply(Template(url), model).value)
            && s.result.value.additionalProxyRequestHeaders == Some([Header(k, [rendered])])
  {
    var key := HeaderValue(def, k, 0);
    var rendered := hb.apply(Template(v), model).value;
    var c1 := map[key := Template(v)];
    var c2 := c1[ProxyUrl(def) := Template(url)];
    assert BodyStep(hb, files, map[], def, params, model, def) == Step(Ok(def), map[]);
    assert RenderCached(hb, map[], key, v, model) == Step(Ok(rendered), c1);
    OneHeaderRenders(hb, map[], def, k, v, model);
    assert RenderHeaders(hb, map[], def, [Header(k, [v])], model) == Step(Ok([Header(k, [rendered])]), c1);
    assert HeadersStep(hb, map[], def, model, def) == Step(Ok(def.(headers := Some([Header(k, [rendered])]))), c1);
    assert RenderCached(hb, c1, ProxyUrl(def), url, model) == Step(Ok(hb.apply(Template(url), model).value), c2);
    assert key in c2 && c2[key] == Template(v);
    assert RenderCached(hb, c2, key, w, model) == Step(Ok(rendered), c2);
    OneHeaderRenders(hb, c2, def, k, w, model);
    assert RenderHeaders(hb, c2, def, [Header(k, [w])], model) == Step(Ok([Header(k, [rendered])]), c2);
    FoldedSingle(k, rendered);
  }

  /** A header with one value renders through the cache under index 0. */
  lemma OneHeaderRenders(hb: Handlebars, cache: Cache, def: ResponseDefinition, k: string, v: string, model: Model)
    ensures var r := RenderCached(hb, cache, HeaderValue(def, k, 0), v, model);
            RenderHeaders(hb, cache, def, [Header(k, [v])], model)
            == match r.result
               case Ok(text) => Step(Ok([Header(k, [text])]), r.cache)
               case Err(f) => Step(Err(f), r.cache)
  {
    assert [v][..0] == [];
    assert [Header(k, [v])][..0] == [];
    assert RenderValues(hb, cache, def, k, [], model) == Step(Ok([]), cache);
    assert RenderHeaders(hb, cache, def, [], model) == Step(Ok([]), cache);
    var r := RenderCached(hb, cache, HeaderValue(def, k, 0), v, model);
    if r.result.Ok? {
      assert [] + [r.result.value] == [r.result.value];
      assert RenderValues(hb, cache, def, k, [v], model) == Step(Ok([r.result.value]), r.cache);
      assert RenderHeader(hb, cache, def, Header(k, [v]), model) == Step(Ok(Header(k, [r.result.value])), r.cache);
      assert [] + [Header(k, [r.result.value])] == [Header(k, [r.result.value])];
    } else {
      assert RenderValues(hb, cache, def, k, [v], model) == Step(Err(r.result.failure), r.cache);
    }
  }

  /** One header with one value is attached as it is. */
  lemma FoldedSingle(k: string, value: string)
    ensures ProxyHeaders.Folded([Header(k, [value])]) == [Header(k, [value])]
  {
    var ps := ProxyHeaders.Pairs([Header(k, [value])]);
    assert ps == [(k, value)] by {
      var vp := ProxyHeaders.ValuePairs(Header(k, [value]));
      assert |vp| == 1 && vp[0] == (k, value);
      assert vp == [(k, value)];
      assert ProxyHeaders.Pairs([Header(k, [value])]) == vp + ProxyHeaders.Pairs([]);
    }
    assert ps[..0] == [];
    assert ProxyHeaders.FirstValues([]) == [];
    assert !ProxyHeaders.HasHeaderKey([], k);
    assert ProxyHeaders.FirstValues(ps) == [] + [Header(k, [value])];
  }

  /** The response headers step, for all inputs: without headers the draft and the cache
      come back as they were; with headers the new headers are exactly the rendered ones,
      which keep each header's key, order and number of values, and value `i` of header
      `j` is what the template cached under `HeaderValue(def, key of j, i)` renders to. */
  lemma HeadersStepResult(hb: Handlebars, cache: Cache, def: ResponseDefinition, model: Model, draft: ResponseDefinition)
    ensures def.headers.None? ==> HeadersStep(hb, cache, def, model, draft) == Step(Ok(draft), cache)
    ensures def.headers.Some? ==>
              var s := HeadersStep(hb, cache, def, model, draft);
              var h := RenderHeaders(hb, cache, def, def.headers.value, model);
              var hs := def.headers.value;
              && s.cache == h.cache
              && (s.result.Ok? <==> h.result.Ok?)
              && (s.result.Err? ==> s.result.failure == h.result.failure)
              && (s.result.Ok? ==>
                    && s.result.value == draft.(headers := Some(h.result.value))
                    && |h.result.value| == |hs|
                    && (forall j :: 0 <= j < |hs| ==>
                          h.result.value[j].key == hs[j].key && |h.result.value[j].values| == |hs[j].values|)
                    && (forall j, i :: 0 <= j < |hs| && 0 <= i < |hs[j].values| ==>
                          && i < |h.result.value[j].values|
                          && HeaderValue(def, hs[j].key, i) in s.cache
                          && hb.apply(s.cache[HeaderValue(def, hs[j].key, i)], model) == Ok(h.result.value[j].values[i])))
  {
    if def.headers.Some? {
      RenderHeadersShape(hb, cache, def, def.headers.value, model);
      RenderHeadersEach(hb, cache, def, def.headers.value, model);
    }
  }

  /** The proxy step, for all inputs. Without a proxy base URL the draft and the cache come
      back as they were. With one, a successful step gives the URL rendered from the template
      cached under `ProxyUrl(def)`; the attached request headers are none without proxy
      request headers, and otherwise the fold of the headers rendered over the cache the URL
      left (none when the fold is empty); every other field of the draft is kept. */
  lemma ProxyStepResult(hb: Handlebars, cache: Cache, def: ResponseDefinition, model: Model, draft: ResponseDefinition)
    ensures def.proxyBaseUrl.None? ==> ProxyStep(hb, cache, def, model, draft) == Step(Ok(draft), cache)
    ensures def.proxyBaseUrl.Some? ==>
              var s := ProxyStep(hb, cache, def, model, draft);
              var u := RenderCached(hb, cache, ProxyUrl(def), def.proxyBaseUrl.value, model);
              s.result.Ok? ==>
                var d := s.result.value;
                && u.result.Ok?
                && ProxyUrl(def) in s.cache
                && hb.apply(s.cache[ProxyUrl(def)], model) == Ok(u.result.value)
                && d.proxyBaseUrl == Some(u.result.value)
                && d.(proxyBaseUrl := draft.proxyBaseUrl, additionalProxyRequestHeaders := draft.additionalProxyRequestHeaders) == draft
                && (def.additionalProxyRequestHeaders.None? ==> d.additionalProxyRequestHeaders.None? && s.cache == u.cache)
                && (def.additionalProxyRequestHeaders.Some? ==>
                      var h := RenderHeaders(hb, u.cache, def, def.additionalProxyRequestHeaders.value, model);
                      var f := Folded(h.result.value);
                      && h.result.Ok?
                      && s.cache == h.cache
                      && d.additionalProxyRequestHeaders == (if f == [] then None else Some(f)))
  {
    if def.proxyBaseUrl.Some? {
      var s := ProxyStep(hb, cache, def, model, draft);
      var u := RenderCached(hb, cache, ProxyUrl(def), def.proxyBaseUrl.value, model);
      if s.result.Ok? {
        var t := Lookup(hb, cache, ProxyUrl(def), def.proxyBaseUrl.value);
        assert u.cache == t.cache && t.result.Ok? && u.result == hb.apply(t.result.value, model);
        assert ProxyUrl(def) in u.cache && u.cache[ProxyUrl(def)] == t.result.value;
      }
    }
  }

  /** Proxy request headers reuse the templates of the response headers: when the response
      and the proxy both have a header with key `k`, value `i` of proxy header `j` is
      rendered to exactly what value `i` of response header `jr` rendered to, whatever text
      the proxy header gives for it. */
  lemma ProxyHeadersReuseResponseHeaderTemplates(hb: Handlebars, files: FileSource, cache: Cache, def: ResponseDefinition,
                                                 params: Parameters, model: Model, jr: nat, j: nat, i: nat)
    requires def.headers.Some? && def.proxyBaseUrl.Some? && def.additionalProxyRequestHeaders.Some?
    requires jr < |def.headers.value| && i < |def.headers.value[jr].values|
    requires j < |def.additionalProxyRequestHeaders.value| && i < |def.additionalProxyRequestHeaders.value[j].values|
    requires def.additionalProxyRequestHeaders.value[j].key == def.headers.value[jr].key
    requires RenderSteps(hb, files, cache, def, params, model).result.Ok?
    ensures var b := BodyStep(hb, files, cache, def, params, model, def);
            var hs := HeadersStep(hb, b.cache, def, model, b.result.value);
            var u := RenderCached(hb, hs.cache, ProxyUrl(def), def.proxyBaseUrl.value, model);
            var ph := RenderHeaders(hb, u.cache, def, def.additionalProxyRequestHeaders.value, model);
            && hs.result.Ok? && ph.result.Ok?
            && hs.result.value.headers.Some? && jr < |hs.result.value.headers.value|
            && i < |hs.result.value.headers.value[jr].values|
            && j < |ph.result.value| && i < |ph.result.value[j].values|
            && ph.result.value[j].values[i] == hs.result.value.headers.value[jr].values[i]
  {
    var b := BodyStep(hb, files, cache, def, params, model, def);
    var hs := HeadersStep(hb, b.cache, def, model, b.result.value);
    var p := ProxyStep(hb, hs.cache, def, model, hs.result.value);
    assert b.result.Ok? && hs.result.Ok? && p.result.Ok?;
    var u := RenderCached(hb, hs.cache, ProxyUrl(def), def.proxyBaseUrl.value, model);
    var phs := def.additionalProxyRequestHeaders.value;
    var ph := RenderHeaders(hb, u.cache, def, phs, model);
    HeadersStepResult(hb, b.cache, def, model, b.result.value);
    ProxyStepResult(hb, hs.cache, def, model, hs.result.value);
    RenderHeadersShape(hb, u.cache, def, phs, model);
    RenderHeadersEach(hb, u.cache, def, phs, model);
    var key := HeaderValue(def, def.headers.value[jr].key, i);
    assert key == HeaderValue(def, phs[j].key, i);
    assert key in hs.cache && hb.apply(hs.cache[key], model) == Ok(hs.result.value.headers.value[jr].values[i]);
    ExtendsTransitive(hs.cache, u.cache, ph.cache);
    assert ph.cache[key] == hs.cache[key];
  }
}

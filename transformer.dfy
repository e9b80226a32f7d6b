/** The transformer itself: a builder that the transform fills step by step, the
    transformer's `transform` with its loops over header values, its lifecycle hooks, and
    the builder that configures it. */
module Transformer {
  import opened Results
  import opened Http
  import opened ContextModel
  import opened Templates
  import opened ErrorMessages
  import opened ProxyHeaders
  import opened Pipeline
  import HeaderRendering

  /** `ResponseDefinitionBuilder`, reduced to what the transform uses: the copied
      definition, whether it has become a proxy builder, and the request headers attached
      to the proxied request. */
  class ResponseDefinitionBuilder {
    var definition: ResponseDefinition
    var proxied: bool
    var additionalRequestHeaders: seq<Header>

    /** `ResponseDefinitionBuilder.like(def)`: starts as a copy of the definition. */
    constructor Like(def: ResponseDefinition)
      ensures definition == def && !proxied && additionalRequestHeaders == []
    {
      definition := def;
      proxied := false;
      additionalRequestHeaders := [];
    }

    method WithResponseBody(body: Body)
      modifies this
      ensures definition == old(definition).(body := body)
      ensures proxied == old(proxied) && additionalRequestHeaders == old(additionalRequestHeaders)
    {
      definition := definition.(body := body);
    }

    method WithBodyFile(fileName: string)
      modifies this
      ensures definition == old(definition).(bodyFileName := Some(fileName))
      ensures proxied == old(proxied) && additionalRequestHeaders == old(additionalRequestHeaders)
    {
      definition := definition.(bodyFileName := Some(fileName));
    }

    method WithHeaders(headers: seq<Header>)
      modifies this
      ensures definition == old(definition).(headers := Some(headers))
      ensures proxied == old(proxied) && additionalRequestHeaders == old(additionalRequestHeaders)
    {
      definition := definition.(headers := Some(headers));
    }

    /** `proxiedFrom(url)`: sets the proxy base URL and turns into a proxy builder with no
        request headers attached yet. */
    method ProxiedFrom(proxyBaseUrl: string)
      modifies this
      ensures definition == old(definition).(proxyBaseUrl := Some(proxyBaseUrl))
      ensures proxied && additionalRequestHeaders == []
    {
      definition := definition.(proxyBaseUrl := Some(proxyBaseUrl));
      proxied := true;
      additionalRequestHeaders := [];
    }

    method WithAdditionalRequestHeader(key: string, value: string)
      modifies this
      ensures additionalRequestHeaders == old(additionalRequestHeaders) + [Header(key, [value])]
      ensures definition == old(definition) && proxied == old(proxied)
    {
      additionalRequestHeaders := additionalRequestHeaders + [Header(key, [value])];
    }

    /** `build()`: a proxy builder attaches its request headers, if it has any. */
    function Build(): (d: ResponseDefinition)
      reads this
      ensures !proxied ==> d == definition
      ensures proxied && additionalRequestHeaders == [] ==> d.additionalProxyRequestHeaders.None?
      ensures proxied && additionalRequestHeaders != [] ==> d.additionalProxyRequestHeaders == Some(additionalRequestHeaders)
      ensures d.(additionalProxyRequestHeaders := definition.additionalProxyRequestHeaders) == definition
    {
      if proxied then
        definition.(additionalProxyRequestHeaders :=
                      if additionalRequestHeaders == [] then None else Some(additionalRequestHeaders))
      else definition
    }
  }

  /** A step that either failed or left the draft `d`: the `Result` a method's failure
      out-parameter and its builder's definition stand for. */
  function AsResult(failure: Option<Failure>, d: ResponseDefinition): Result<ResponseDefinition> {
    match failure
    case Some(f) => Err(f)
    case None => Ok(d)
  }

  const Name := "response-template"

  /** `ResponseTemplateTransformer`. */
  class ResponseTemplateTransformer {
    const global: bool
    const files: FileSource
    const engine: TemplateEngine
    /** The `addExtraModelElements` hook; a subclass may override it. */
    const extraModelElements: ExtraModelHook

    constructor (global: bool, files: FileSource, handlebars: Handlebars, helpers: map<string, Helper>,
                 maxCacheEntries: Option<int>, permittedSystemKeys: Option<set<string>>)
      ensures this.global == global && this.files == files
      ensures fresh(engine) && engine.handlebars == handlebars && engine.helpers == helpers
      ensures engine.maxCacheEntries == maxCacheEntries && engine.permittedSystemKeys == permittedSystemKeys
      ensures engine.cache == map[]
      ensures extraModelElements == NoExtraModelElements()
    {
      this.global := global;
      this.files := files;
      engine := new TemplateEngine(handlebars, helpers, maxCacheEntries, permittedSystemKeys);
      extraModelElements := NoExtraModelElements();
    }

    /** A transformer whose `addExtraModelElements` is overridden by `hook`. */
    constructor WithExtraModelElements(global: bool, files: FileSource, handlebars: Handlebars,
                                       helpers: map<string, Helper>, maxCacheEntries: Option<int>,
                                       permittedSystemKeys: Option<set<string>>, hook: ExtraModelHook)
      ensures this.global == global && this.files == files
      ensures fresh(engine) && engine.handlebars == handlebars && engine.helpers == helpers
      ensures engine.maxCacheEntries == maxCacheEntries && engine.permittedSystemKeys == permittedSystemKeys
      ensures engine.cache == map[]
      ensures extraModelElements == hook
    {
      this.global := global;
      this.files := files;
      engine := new TemplateEngine(handlebars, helpers, maxCacheEntries, permittedSystemKeys);
      extraModelElements := hook;
    }

    function ApplyGlobally(): bool
      reads this
    {
      global
    }

    function GetName(): string {
      Name
    }

    /** `transform`: renders the definition of the serve event, or, on a template failure,
        answers with a 500 and records the cleaned message on the serve event. */
    method Transform(serveEvent: ServeEvent) returns (outcome: Outcome)
      modifies engine, serveEvent
      ensures var t := Transformed(engine.handlebars, files, extraModelElements, old(engine.cache),
                                   serveEvent.request, serveEvent.responseDefinition, serveEvent.pathTemplate);
              && outcome == t.outcome
              && engine.cache == t.cache
              && serveEvent.subEvents == old(serveEvent.subEvents) + t.events
    {
      var rendered := RenderDefinition(serveEvent.request, serveEvent.responseDefinition, serveEvent.pathTemplate);
      match rendered
      case Ok(d) =>
        outcome := Returned(d);
      case Err(HandlebarsFailure(m)) =>
        var message := CleanUpHandlebarsErrorMessage(m);
        serveEvent.AppendSubEvent(ErrorEvent(message));
        outcome := Returned(ServerError(message));
      case Err(OtherFailure(m)) =>
        outcome := Thrown(OtherFailure(m));
    }

    /** The `try` block of `transform`. */
    method RenderDefinition(request: Request, responseDefinition: ResponseDefinition, pathTemplate: Option<string>)
      returns (r: Result<ResponseDefinition>)
      modifies engine
      ensures Step(r, engine.cache) == Render(engine.handlebars, files, extraModelElements, old(engine.cache),
                                             request, responseDefinition, pathTemplate)
    {
      var parameters := ResolveParameters(responseDefinition);
      var newResponseDefBuilder := new ResponseDefinitionBuilder.Like(responseDefinition);
      var model := BuildModel(parameters, RequestModel(request, pathTemplate),
                              extraModelElements(request, responseDefinition, files, parameters));
      if model.Err? {
        return Err(model.failure);
      }
      ghost var c0 := engine.cache;
      var failure := RenderBody(newResponseDefBuilder, responseDefinition, parameters, model.value);
      if failure.Some? {
        return Err(failure.value);
      }
      ghost var c1 := engine.cache;
      ghost var d1 := newResponseDefBuilder.definition;
      failure := RenderResponseHeaders(newResponseDefBuilder, responseDefinition, model.value);
      if failure.Some? {
        return Err(failure.value);
      }
      ghost var d2 := newResponseDefBuilder.definition;
      assert HeadersStep(engine.handlebars, c1, responseDefinition, model.value, d1) == Step(Ok(d2), engine.cache);
      failure := RenderProxy(newResponseDefBuilder, responseDefinition, model.value);
      r := AsResult(failure, newResponseDefBuilder.Build());
    }

    /** `uncheckedApplyTemplate` followed by `applyTemplatedResponseBody`. */
    method ApplyTemplatedResponseBody(builder: ResponseDefinitionBuilder, model: Model, bodyTemplate: Template, isJsonBody: bool)
      returns (failure: Option<Failure>)
      modifies builder
      ensures var rendered := engine.handlebars.apply(bodyTemplate, model);
              && (rendered.Err? ==> failure == Some(rendered.failure) && builder.definition == old(builder.definition))
              && (rendered.Ok? ==> failure.None? && builder.definition == old(builder.definition).(body := Text(rendered.value, isJsonBody)))
      ensures builder.proxied == old(builder.proxied) && builder.additionalRequestHeaders == old(builder.additionalRequestHeaders)
    {
      var bodyString := engine.handlebars.apply(bodyTemplate, model);
      if bodyString.Err? {
        return Some(bodyString.failure);
      }
      builder.WithResponseBody(Text(bodyString.value, isJsonBody));
      failure := None;
    }

    /** The body branch of `transform`. */
    method RenderBody(builder: ResponseDefinitionBuilder, responseDefinition: ResponseDefinition,
                      parameters: Parameters, model: Model) returns (failure: Option<Failure>)
      modifies engine, builder
      ensures Step(AsResult(failure, builder.definition), engine.cache)
              == BodyStep(engine.handlebars, files, old(engine.cache), responseDefinition, parameters, model, old(builder.definition))
      ensures builder.proxied == old(builder.proxied) && builder.additionalRequestHeaders == old(builder.additionalRequestHeaders)
    {
      if responseDefinition.SpecifiesTextBodyContent() {
        var isJsonBody := responseDefinition.body.json;
        var bodyTemplate := engine.GetTemplate(InlineBody(responseDefinition), responseDefinition.body.content);
        if bodyTemplate.Err? {
          return Some(bodyTemplate.failure);
        }
        failure := ApplyTemplatedResponseBody(builder, model, bodyTemplate.value, isJsonBody);
      } else if responseDefinition.SpecifiesBodyFile() {
        var filePathTemplate := engine.GetUncachedTemplate(responseDefinition.bodyFileName.value);
        if filePathTemplate.Err? {
          return Some(filePathTemplate.failure);
        }
        var compiledFilePath := engine.handlebars.apply(filePathTemplate.value, model);
        if compiledFilePath.Err? {
          return Some(compiledFilePath.failure);
        }
        var disableBodyFileTemplating := GetBoolean(parameters, DisableBodyFileTemplating, false);
        if disableBodyFileTemplating.Err? {
          return Some(disableBodyFileTemplating.failure);
        }
        if disableBodyFileTemplating.value {
          builder.WithBodyFile(compiledFilePath.value);
          failure := None;
        } else {
          var file := ReadTextFile(files, compiledFilePath.value);
          if file.Err? {
            return Some(file.failure);
          }
          var bodyTemplate := engine.GetTemplate(FileBody(responseDefinition, compiledFilePath.value), file.value);
          if bodyTemplate.Err? {
            return Some(bodyTemplate.failure);
          }
          failure := ApplyTemplatedResponseBody(builder, model, bodyTemplate.value, false);
        }
      } else {
        failure := None;
      }
    }

    /** The values of one header, value `index` rendered under `HeaderValue(def, key, index)`. */
    method RenderHeaderValues(responseDefinition: ResponseDefinition, key: string, values: seq<string>, model: Model)
      returns (r: Result<seq<string>>)
      modifies engine
      ensures Step(r, engine.cache) == RenderValues(engine.handlebars, old(engine.cache), responseDefinition, key, values, model)
    {
      var valueList: seq<string> := [];
      var index := 0;
      while index < |values|
        invariant 0 <= index <= |values|
        invariant RenderValues(engine.handlebars, old(engine.cache), responseDefinition, key, values[..index], model)
                  == Step(Ok(valueList), engine.cache)
      {
        ghost var before := engine.cache;
        HeaderRendering.RenderValuesNext(engine.handlebars, old(engine.cache), responseDefinition, key, values, model, index);
        var template := engine.GetTemplate(HeaderValue(responseDefinition, key, index), values[index]);
        ghost var v := RenderCached(engine.handlebars, before, HeaderValue(responseDefinition, key, index), values[index], model);
        assert v.cache == engine.cache;
        if template.Err? {
          assert v.result == Err(template.failure);
          HeaderRendering.RenderValuesStopsAtFailure(engine.handlebars, old(engine.cache), responseDefinition, key, values, model, index + 1);
          return Err(template.failure);
        }
        var text := engine.handlebars.apply(template.value, model);
        assert v.result == text;
        if text.Err? {
          HeaderRendering.RenderValuesStopsAtFailure(engine.handlebars, old(engine.cache), responseDefinition, key, values, model, index + 1);
          return Err(text.failure);
        }
        valueList := valueList + [text.value];
        index := index + 1;
      }
      assert values[..index] == values;
      r := Ok(valueList);
    }

    /** A list of headers, each keeping its key, rendered one after the other. */
    method RenderHeaderList(responseDefinition: ResponseDefinition, headers: seq<Header>, model: Model)
      returns (r: Result<seq<Header>>)
      modifies engine
      ensures Step(r, engine.cache) == RenderHeaders(engine.handlebars, old(engine.cache), responseDefinition, headers, model)
    {
      var rendered: seq<Header> := [];
      var i := 0;
      while i < |headers|
        invariant 0 <= i <= |headers|
        invariant RenderHeaders(engine.handlebars, old(engine.cache), responseDefinition, headers[..i], model)
                  == Step(Ok(rendered), engine.cache)
      {
        HeaderRendering.RenderHeadersNext(engine.handlebars, old(engine.cache), responseDefinition, headers, model, i);
        var header := headers[i];
        var values := RenderHeaderValues(responseDefinition, header.key, header.values, model);
        if values.Err? {
          HeaderRendering.RenderHeadersStopsAtFailure(engine.handlebars, old(engine.cache), responseDefinition, headers, model, i + 1);
          return Err(values.failure);
        }
        rendered := rendered + [Header(header.key, values.value)];
        i := i + 1;
      }
      assert headers[..i] == headers;
      r := Ok(rendered);
    }

    /** The response headers branch of `transform`. */
    method RenderResponseHeaders(builder: ResponseDefinitionBuilder, responseDefinition: ResponseDefinition, model: Model)
      returns (failure: Option<Failure>)
      modifies engine, builder
      ensures Step(AsResult(failure, builder.definition), engine.cache)
              == HeadersStep(engine.handlebars, old(engine.cache), responseDefinition, model, old(builder.definition))
      ensures builder.proxied == old(builder.proxied) && builder.additionalRequestHeaders == old(builder.additionalRequestHeaders)
    {
      if responseDefinition.headers.None? {
        return None;
      }
      var newResponseHeaders := RenderHeaderList(responseDefinition, responseDefinition.headers.value, model);
      if newResponseHeaders.Err? {
        return Some(newResponseHeaders.failure);
      }
      builder.WithHeaders(newResponseHeaders.value);
      failure := None;
    }

    /** Attaches each key of the rendered proxy headers with its first value. */
    method AttachProxyHeaders(builder: ResponseDefinitionBuilder, proxyHttpHeaders: seq<Header>)
      modifies builder
      ensures builder.additionalRequestHeaders == old(builder.additionalRequestHeaders) + Folded(proxyHttpHeaders)
      ensures builder.definition == old(builder.definition) && builder.proxied == old(builder.proxied)
    {
      var keys := Folded(proxyHttpHeaders);
      FirstValuesShape(Pairs(proxyHttpHeaders));
      var i := 0;
      while i < |keys|
        invariant 0 <= i <= |keys|
        invariant builder.additionalRequestHeaders == old(builder.additionalRequestHeaders) + keys[..i]
        invariant builder.definition == old(builder.definition) && builder.proxied == old(builder.proxied)
      {
        assert keys[i] == Header(keys[i].key, [keys[i].values[0]]);
        assert keys[..i + 1] == keys[..i] + [keys[i]];
        builder.WithAdditionalRequestHeader(keys[i].key, keys[i].values[0]);
        i := i + 1;
      }
      assert keys[..i] == keys;
    }

    /** The proxy branch of `transform`, ending in what the builder builds. */
    method RenderProxy(builder: ResponseDefinitionBuilder, responseDefinition: ResponseDefinition, model: Model)
      returns (failure: Option<Failure>)
      requires !builder.proxied && builder.additionalRequestHeaders == []
      modifies engine, builder
      ensures Step(AsResult(failure, builder.Build()), engine.cache)
              == ProxyStep(engine.handlebars, old(engine.cache), responseDefinition, model, old(builder.definition))
    {
      if responseDefinition.proxyBaseUrl.None? {
        return None;
      }
      var proxyBaseUrlTemplate := engine.GetTemplate(ProxyUrl(responseDefinition), responseDefinition.proxyBaseUrl.value);
      if proxyBaseUrlTemplate.Err? {
        return Some(proxyBaseUrlTemplate.failure);
      }
      var newProxyBaseUrl := engine.handlebars.apply(proxyBaseUrlTemplate.value, model);
      if newProxyBaseUrl.Err? {
        return Some(newProxyBaseUrl.failure);
      }
      ghost var draft := builder.definition;
      builder.ProxiedFrom(newProxyBaseUrl.value);
      if responseDefinition.additionalProxyRequestHeaders.Some? {
        var newHeaders := RenderHeaderList(responseDefinition, responseDefinition.additionalProxyRequestHeaders.value, model);
        if newHeaders.Err? {
          return Some(newHeaders.failure);
        }
        AttachProxyHeaders(builder, newHeaders.value);
        assert [] + Folded(newHeaders.value) == Folded(newHeaders.value);
        assert builder.Build() == ProxyBuilt(draft, newProxyBaseUrl.value, Folded(newHeaders.value));
      } else {
        assert builder.Build() == ProxyBuilt(draft, newProxyBaseUrl.value, []);
      }
      failure := None;
    }

    /** `afterStubRemoved`: drops every cached template. */
    method AfterStubRemoved()
      modifies engine
      ensures engine.cache == map[] && engine.CacheSize() == 0
    {
      engine.InvalidateCache();
    }

    /** `afterStubsReset`: drops every cached template. */
    method AfterStubsReset()
      modifies engine
      ensures engine.cache == map[] && engine.CacheSize() == 0
    {
      engine.InvalidateCache();
    }

    function GetCacheSize(): nat
      reads this, engine
    {
      engine.CacheSize()
    }

    function GetMaxCacheEntries(): Option<int>
      reads this
    {
      engine.maxCacheEntries
    }
  }

  /** `ResponseTemplateTransformer.Builder`: collects the configuration, then builds a
      transformer over the server's file source. */
  class Builder {
    var global: bool
    var handlebars: Handlebars
    var helpers: map<string, Helper>
    var maxCacheEntries: Option<int>
    var permittedSystemKeys: Option<set<string>>

    /** The defaults: applied globally, no helpers, no cache bound, no permitted system keys;
        `handlebars` stands for `new Handlebars()`. */
    constructor (handlebars: Handlebars)
      ensures global && this.handlebars == handlebars && helpers == map[]
      ensures maxCacheEntries.None? && permittedSystemKeys.None?
    {
      global := true;
      this.handlebars := handlebars;
      helpers := map[];
      maxCacheEntries := None;
      permittedSystemKeys := None;
    }

    method Global(global: bool)
      modifies this
      ensures this.global == global
      ensures handlebars == old(handlebars) && helpers == old(helpers)
      ensures maxCacheEntries == old(maxCacheEntries) && permittedSystemKeys == old(permittedSystemKeys)
    {
      this.global := global;
    }

    method SetHandlebars(handlebars: Handlebars)
      modifies this
      ensures this.handlebars == handlebars
      ensures global == old(global) && helpers == old(helpers)
      ensures maxCacheEntries == old(maxCacheEntries) && permittedSystemKeys == old(permittedSystemKeys)
    {
      this.handlebars := handlebars;
    }

    method Helpers(helpers: map<string, Helper>)
      modifies this
      ensures this.helpers == helpers
      ensures global == old(global) && handlebars == old(handlebars)
      ensures maxCacheEntries == old(maxCacheEntries) && permittedSystemKeys == old(permittedSystemKeys)
    {
      this.helpers := helpers;
    }

    /** `helper(name, helper)`: registers one helper, replacing one of the same name. */
    method AddHelper(name: string, helper: Helper)
      modifies this
      ensures helpers == old(helpers)[name := helper]
      ensures global == old(global) && handlebars == old(handlebars)
      ensures maxCacheEntries == old(maxCacheEntries) && permittedSystemKeys == old(permittedSystemKeys)
    {
      helpers := helpers[name := helper];
    }

    method MaxCacheEntries(maxCacheEntries: Option<int>)
      modifies this
      ensures this.maxCacheEntries == maxCacheEntries
      ensures global == old(global) && handlebars == old(handlebars) && helpers == old(helpers)
      ensures permittedSystemKeys == old(permittedSystemKeys)
    {
      this.maxCacheEntries := maxCacheEntries;
    }

    method PermittedSystemKeys(keys: Option<set<string>>)
      modifies this
      ensures permittedSystemKeys == keys
      ensures global == old(global) && handlebars == old(handlebars) && helpers == old(helpers)
      ensures maxCacheEntries == old(maxCacheEntries)
    {
      permittedSystemKeys := keys;
    }

    /** The varargs overload: the given keys as a set. */
    method PermittedSystemKeysOf(keys: seq<string>)
      modifies this
      ensures permittedSystemKeys == Some(set k | k in keys)
      ensures global == old(global) && handlebars == old(handlebars) && helpers == old(helpers)
      ensures maxCacheEntries == old(maxCacheEntries)
    {
      permittedSystemKeys := Some(set k | k in keys);
    }

    /** `build()` applied to the server's services: a transformer with the collected
        configuration, the server's file source and an empty cache. */
    method Build(files: FileSource) returns (t: ResponseTemplateTransformer)
      ensures fresh(t) && fresh(t.engine)
      ensures t.global == global && t.files == files
      ensures t.engine.handlebars == handlebars && t.engine.helpers == helpers
      ensures t.engine.maxCacheEntries == maxCacheEntries && t.engine.permittedSystemKeys == permittedSystemKeys
      ensures t.engine.cache == map[] && t.extraModelElements == NoExtraModelElements()
    {
      t := new ResponseTemplateTransformer(global, files, handlebars, helpers, maxCacheEntries, permittedSystemKeys);
    }
  }

  /** `ResponseTemplateTransformer.global(flag)`: the default configuration with the
      global flag set. */
  method GlobalTransformer(global: bool, handlebars: Handlebars, files: FileSource) returns (t: ResponseTemplateTransformer)
    ensures fresh(t) && fresh(t.engine) && t.global == global && t.files == files
    ensures t.engine.handlebars == handlebars && t.engine.helpers == map[]
    ensures t.engine.maxCacheEntries.None? && t.engine.permittedSystemKeys.None?
    ensures t.engine.cache == map[] && t.extraModelElements == NoExtraModelElements()
  {
    var builder := new Builder(handlebars);
    builder.Global(global);
    t := builder.Build(files);
  }
}

/** The template cache is invisible to repeated transforms: transforming the same serve
    event again, over the cache the first transform left, gives the same outcome and the
    same sub-events, and adds nothing to the cache. */
module CacheReplay {
  import opened Results
  import opened Http
  import opened ContextModel
  import opened Templates
  import opened Pipeline

  /** `cache` holds everything step `s` left behind, and is exactly what it left when the
      step failed (a failed step ends the transform, so nothing comes after it). */
  predicate Replayable<T>(s: Step<T>, cache: Cache) {
    Extends(cache, s.cache) && (s.result.Err? ==> cache == s.cache)
  }

  lemma LookupReplays(hb: Handlebars, first: Cache, key: CacheKey, source: string, cache: Cache)
    requires Replayable(Lookup(hb, first, key, source), cache)
    ensures Lookup(hb, cache, key, source) == Step(Lookup(hb, first, key, source).result, cache)
  {
  }

  lemma RenderCachedReplays(hb: Handlebars, first: Cache, key: CacheKey, source: string, model: Model, cache: Cache)
    requires Replayable(RenderCached(hb, first, key, source, model), cache)
    ensures RenderCached(hb, cache, key, source, model) == Step(RenderCached(hb, first, key, source, model).result, cache)
  {
    LookupReplays(hb, first, key, source, cache);
  }

  lemma {:induction false} RenderValuesReplays(hb: Handlebars, first: Cache, def: ResponseDefinition, key: string,
                                               values: seq<string>, model: Model, cache: Cache)
    requires Replayable(RenderValues(hb, first, def, key, values, model), cache)
    ensures RenderValues(hb, cache, def, key, values, model) == Step(RenderValues(hb, first, def, key, values, model).result, cache)
    decreases |values|
  {
    if values != [] {
      var n := |values|;
      var s := RenderValues(hb, first, def, key, values, model);
      var front := RenderValues(hb, first, def, key, values[..n - 1], model);
      if front.result.Ok? {
        var v := RenderCached(hb, front.cache, HeaderValue(def, key, n - 1), values[n - 1], model);
        assert s.cache == v.cache;
        ExtendsTransitive(front.cache, v.cache, cache);
        RenderValuesReplays(hb, first, def, key, values[..n - 1], model, cache);
        RenderCachedReplays(hb, front.cache, HeaderValue(def, key, n - 1), values[n - 1], model, cache);
      } else {
        RenderValuesReplays(hb, first, def, key, values[..n - 1], model, cache);
      }
    }
  }

  lemma RenderHeaderReplays(hb: Handlebars, first: Cache, def: ResponseDefinition, h: Header, model: Model, cache: Cache)
    requires Replayable(RenderHeader(hb, first, def, h, model), cache)
    ensures RenderHeader(hb, cache, def, h, model) == Step(RenderHeader(hb, first, def, h, model).result, cache)
  {
    RenderValuesReplays(hb, first, def, h.key, h.values, model, cache);
  }

  lemma {:induction false} RenderHeadersReplays(hb: Handlebars, first: Cache, def: ResponseDefinition,
                                                hs: seq<Header>, model: Model, cache: Cache)
    requires Replayable(RenderHeaders(hb, first, def, hs, model), cache)
    ensures RenderHeaders(hb, cache, def, hs, model) == Step(RenderHeaders(hb, first, def, hs, model).result, cache)
    decreases |hs|
  {
    if hs != [] {
      var n := |hs|;
      var s := RenderHeaders(hb, first, def, hs, model);
      var front := RenderHeaders(hb, first, def, hs[..n - 1], model);
      if front.result.Ok? {
        var h := RenderHeader(hb, front.cache, def, hs[n - 1], model);
        assert s.cache == h.cache;
        ExtendsTransitive(front.cache, h.cache, cache);
        RenderHeadersReplays(hb, first, def, hs[..n - 1], model, cache);
        RenderHeaderReplays(hb, front.cache, def, hs[n - 1], model, cache);
      } else {
        RenderHeadersReplays(hb, first, def, hs[..n - 1], model, cache);
      }
    }
  }

  lemma BodyStepReplays(hb: Handlebars, files: FileSource, first: Cache, def: ResponseDefinition,
                        params: Parameters, model: Model, draft: ResponseDefinition, cache: Cache)
    requires Replayable(BodyStep(hb, files, first, def, params, model, draft), cache)
    ensures BodyStep(hb, files, cache, def, params, model, draft) == Step(BodyStep(hb, files, first, def, params, model, draft).result, cache)
  {
    if def.SpecifiesTextBodyContent() {
      RenderCachedReplays(hb, first, InlineBody(def), def.body.content, model, cache);
    } else if def.SpecifiesBodyFile() {
      var path := RenderUncached(hb, def.bodyFileName.value, model);
      var disabled := GetBoolean(params, DisableBodyFileTemplating, false);
      if path.Ok? && disabled.Ok? && !disabled.value {
        var content := ReadTextFile(files, path.value);
        if content.Ok? {
          RenderCachedReplays(hb, first, FileBody(def, path.value), content.value, model, cache);
        }
      }
    }
  }

  lemma HeadersStepReplays(hb: Handlebars, first: Cache, def: ResponseDefinition, model: Model,
                           draft: ResponseDefinition, cache: Cache)
    requires Replayable(HeadersStep(hb, first, def, model, draft), cache)
    ensures HeadersStep(hb, cache, def, model, draft) == Step(HeadersStep(hb, first, def, model, draft).result, cache)
  {
    if def.headers.Some? {
      RenderHeadersReplays(hb, first, def, def.headers.value, model, cache);
    }
  }

  lemma ProxyStepReplays(hb: Handlebars, first: Cache, def: ResponseDefinition, model: Model,
                         draft: ResponseDefinition, cache: Cache)
    requires Replayable(ProxyStep(hb, first, def, model, draft), cache)
    ensures ProxyStep(hb, cache, def, model, draft) == Step(ProxyStep(hb, first, def, model, draft).result, cache)
  {
    if def.proxyBaseUrl.Some? {
      var s := ProxyStep(hb, first, def, model, draft);
      var u := RenderCached(hb, first, ProxyUrl(def), def.proxyBaseUrl.value, model);
      if u.result.Ok? && def.additionalProxyRequestHeaders.Some? {
        var h := RenderHeaders(hb, u.cache, def, def.additionalProxyRequestHeaders.value, model);
        assert s.cache == h.cache;
        ExtendsTransitive(u.cache, h.cache, cache);
        RenderCachedReplays(hb, first, ProxyUrl(def), def.proxyBaseUrl.value, model, cache);
        RenderHeadersReplays(hb, u.cache, def, def.additionalProxyRequestHeaders.value, model, cache);
      } else {
        RenderCachedReplays(hb, first, ProxyUrl(def), def.proxyBaseUrl.value, model, cache);
      }
    }
  }

  lemma RenderStepsReplays(hb: Handlebars, files: FileSource, first: Cache, def: ResponseDefinition,
                           params: Parameters, model: Model, cache: Cache)
    requires Replayable(RenderSteps(hb, files, first, def, params, model), cache)
    ensures RenderSteps(hb, files, cache, def, params, model) == Step(RenderSteps(hb, files, first, def, params, model).result, cache)
  {
    var s := RenderSteps(hb, files, first, def, params, model);
    var b := BodyStep(hb, files, first, def, params, model, def);
    if b.result.Ok? {
      var h := HeadersStep(hb, b.cache, def, model, b.result.value);
      if h.result.Ok? {
        var p := ProxyStep(hb, h.cache, def, model, h.result.value);
        assert s == p;
        ExtendsTransitive(h.cache, p.cache, cache);
        ExtendsTransitive(b.cache, h.cache, cache);
        ProxyStepReplays(hb, h.cache, def, model, h.result.value, cache);
      } else {
        assert s.cache == h.cache;
      }
      ExtendsTransitive(b.cache, h.cache, cache);
      HeadersStepReplays(hb, b.cache, def, model, b.result.value, cache);
    }
    BodyStepReplays(hb, files, first, def, params, model, def, cache);
  }

  /** Transforming again over the cache the first transform left repeats the first
      transform exactly: the same outcome, the same sub-events, and the cache as it was. */
  lemma TransformReplays(hb: Handlebars, files: FileSource, hook: ExtraModelHook, cache: Cache,
                         request: Request, def: ResponseDefinition, pathTemplate: Option<string>)
    ensures var t := Transformed(hb, files, hook, cache, request, def, pathTemplate);
            Transformed(hb, files, hook, t.cache, request, def, pathTemplate) == t
  {
    var s := Render(hb, files, hook, cache, request, def, pathTemplate);
    var params := ResolveParameters(def);
    var model := BuildModel(params, RequestModel(request, pathTemplate), hook(request, def, files, params));
    if model.Ok? {
      RenderStepsReplays(hb, files, cache, def, params, model.value, s.cache);
    }
  }
}

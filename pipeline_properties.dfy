/** Properties of the header rendering steps: where each rendered value comes from, what
    a cache whose templates match their sources gives, and how a failure ends a step. */
module HeaderRendering {
  import opened Results
  import opened Http
  import opened ContextModel
  import opened Templates
  import opened Pipeline

  /** Once a prefix of the values fails, the whole list fails the same way and leaves the
      same cache: rendering stops at the first failure. */
  lemma {:induction false} RenderValuesStopsAtFailure(hb: Handlebars, cache: Cache, def: ResponseDefinition,
                                                      key: string, values: seq<string>, model: Model, i: nat)
    requires i <= |values|
    requires RenderValues(hb, cache, def, key, values[..i], model).result.Err?
    ensures RenderValues(hb, cache, def, key, values, model) == RenderValues(hb, cache, def, key, values[..i], model)
    decreases |values|
  {
    if i < |values| {
      var n := |values|;
      assert values[..n - 1][..i] == values[..i];
      RenderValuesStopsAtFailure(hb, cache, def, key, values[..n - 1], model, i);
    } else {
      assert values[..i] == values;
    }
  }

  /** The same for a list of headers. */
  lemma {:induction false} RenderHeadersStopsAtFailure(hb: Handlebars, cache: Cache, def: ResponseDefinition,
                                                       hs: seq<Header>, model: Model, i: nat)
    requires i <= |hs|
    requires RenderHeaders(hb, cache, def, hs[..i], model).result.Err?
    ensures RenderHeaders(hb, cache, def, hs, model) == RenderHeaders(hb, cache, def, hs[..i], model)
    decreases |hs|
  {
    if i < |hs| {
      var n := |hs|;
      assert hs[..n - 1][..i] == hs[..i];
      RenderHeadersStopsAtFailure(hb, cache, def, hs[..n - 1], model, i);
    } else {
      assert hs[..i] == hs;
    }
  }

  /** Rendering one value more: the prefix up to `i` and then value `i`. */
  lemma RenderValuesNext(hb: Handlebars, cache: Cache, def: ResponseDefinition,
                         key: string, values: seq<string>, model: Model, i: nat)
    requires i < |values|
    ensures var front := RenderValues(hb, cache, def, key, values[..i], model);
            var s := RenderValues(hb, cache, def, key, values[..i + 1], model);
            && (front.result.Err? ==> s == front)
            && (front.result.Ok? ==>
                  var v := RenderCached(hb, front.cache, HeaderValue(def, key, i), values[i], model);
                  && (v.result.Err? ==> s == Step(Err(v.result.failure), v.cache))
                  && (v.result.Ok? ==> s == Step(Ok(front.result.value + [v.result.value]), v.cache)))
  {
    assert values[..i + 1][..i] == values[..i];
  }

  /** Rendering one header more: the prefix up to `i` and then header `i`. */
  lemma RenderHeadersNext(hb: Handlebars, cache: Cache, def: ResponseDefinition,
                          hs: seq<Header>, model: Model, i: nat)
    requires i < |hs|
    ensures var front := RenderHeaders(hb, cache, def, hs[..i], model);
            var s := RenderHeaders(hb, cache, def, hs[..i + 1], model);
            && (front.result.Err? ==> s == front)
            && (front.result.Ok? ==>
                  var h := RenderHeader(hb, front.cache, def, hs[i], model);
                  && (h.result.Err? ==> s == Step(Err(h.result.failure), h.cache))
                  && (h.result.Ok? ==> s == Step(Ok(front.result.value + [h.result.value]), h.cache)))
  {
    assert hs[..i + 1][..i] == hs[..i];
  }

  /** Value `i` of a rendered header is what the template that ends up cached under
      `HeaderValue(def, key, i)` renders to. */
  lemma {:induction false} RenderValuesEach(hb: Handlebars, cache: Cache, def: ResponseDefinition,
                                            key: string, values: seq<string>, model: Model)
    ensures var s := RenderValues(hb, cache, def, key, values, model);
            s.result.Ok? ==>
              forall i :: 0 <= i < |values| ==>
                HeaderValue(def, key, i) in s.cache && hb.apply(s.cache[HeaderValue(def, key, i)], model) == Ok(s.result.value[i])
    decreases |values|
  {
    var s := RenderValues(hb, cache, def, key, values, model);
    if values != [] && s.result.Ok? {
      var n := |values|;
      var front := RenderValues(hb, cache, def, key, values[..n - 1], model);
      RenderValuesEach(hb, cache, def, key, values[..n - 1], model);
      var done := front.result.value;
      var k := HeaderValue(def, key, n - 1);
      var t := Lookup(hb, front.cache, k, values[n - 1]);
      var v := RenderCached(hb, front.cache, k, values[n - 1], model);
      assert v.cache == t.cache && t.result.Ok?;
      var text := v.result.value;
      assert s == Step(Ok(done + [text]), v.cache);
      forall i | 0 <= i < n
        ensures HeaderValue(def, key, i) in s.cache && hb.apply(s.cache[HeaderValue(def, key, i)], model) == Ok(s.result.value[i])
      {
        if i < n - 1 {
          assert s.result.value[i] == done[i];
          assert HeaderValue(def, key, i) in front.cache;
        } else {
          assert s.result.value[i] == text;
        }
      }
    }
  }

  /** Over a cache whose templates were compiled from their keys' sources, and with
      `sourceOf` giving value `i` for `HeaderValue(def, key, i)`, the cache stays that way
      and value `i` renders as the template compiled from value `i`. */
  lemma {:induction false} RenderValuesCoherent(hb: Handlebars, cache: Cache, def: ResponseDefinition, key: string,
                                                values: seq<string>, model: Model, sourceOf: CacheKey -> string)
    requires Coherent(cache, sourceOf)
    requires forall i :: 0 <= i < |values| ==> sourceOf(HeaderValue(def, key, i)) == values[i]
    ensures var s := RenderValues(hb, cache, def, key, values, model);
            && Coherent(s.cache, sourceOf)
            && (s.result.Ok? ==> forall i :: 0 <= i < |values| ==> hb.apply(Template(values[i]), model) == Ok(s.result.value[i]))
    decreases |values|
  {
    RenderValuesEach(hb, cache, def, key, values, model);
    var s := RenderValues(hb, cache, def, key, values, model);
    if values != [] {
      var n := |values|;
      var front := RenderValues(hb, cache, def, key, values[..n - 1], model);
      RenderValuesCoherent(hb, cache, def, key, values[..n - 1], model, sourceOf);
      if front.result.Ok? {
        LookupKeepsCoherent(hb, front.cache, HeaderValue(def, key, n - 1), sourceOf);
      }
    }
  }

  /** Rendered headers keep the keys, the order and the value counts of the source
      headers. */
  lemma {:induction false} RenderHeadersShape(hb: Handlebars, cache: Cache, def: ResponseDefinition,
                                              hs: seq<Header>, model: Model)
    ensures var s := RenderHeaders(hb, cache, def, hs, model);
            s.result.Ok? ==>
              forall j :: 0 <= j < |hs| ==> s.result.value[j].key == hs[j].key && |s.result.value[j].values| == |hs[j].values|
    decreases |hs|
  {
    var s := RenderHeaders(hb, cache, def, hs, model);
    if hs != [] && s.result.Ok? {
      var n := |hs|;
      var front := RenderHeaders(hb, cache, def, hs[..n - 1], model);
      RenderHeadersShape(hb, cache, def, hs[..n - 1], model);
      var h := RenderHeader(hb, front.cache, def, hs[n - 1], model);
      assert s.result.value == front.result.value + [h.result.value];
      forall j | 0 <= j < n ensures s.result.value[j].key == hs[j].key && |s.result.value[j].values| == |hs[j].values| {
        if j < n - 1 {
          assert hs[..n - 1][j] == hs[j];
          assert s.result.value[j] == front.result.value[j];
        }
      }
    }
  }

  /** Value `i` of rendered header `j` is what the template that ends up cached under
      `HeaderValue(def, key of j, i)` renders to. */
  lemma {:induction false} RenderHeadersEach(hb: Handlebars, cache: Cache, def: ResponseDefinition,
                                             hs: seq<Header>, model: Model)
    ensures var s := RenderHeaders(hb, cache, def, hs, model);
            s.result.Ok? ==>
              forall j, i :: 0 <= j < |hs| && 0 <= i < |hs[j].values| ==>
                && i < |s.result.value[j].values|
                && HeaderValue(def, hs[j].key, i) in s.cache
                && hb.apply(s.cache[HeaderValue(def, hs[j].key, i)], model) == Ok(s.result.value[j].values[i])
    decreases |hs|
  {
    RenderHeadersShape(hb, cache, def, hs, model);
    var s := RenderHeaders(hb, cache, def, hs, model);
    if hs != [] && s.result.Ok? {
      var n := |hs|;
      var front := RenderHeaders(hb, cache, def, hs[..n - 1], model);
      RenderHeadersEach(hb, cache, def, hs[..n - 1], model);
      RenderHeadersShape(hb, cache, def, hs[..n - 1], model);
      var last := hs[n - 1];
      var h := RenderHeader(hb, front.cache, def, last, model);
      var r := RenderValues(hb, front.cache, def, last.key, last.values, model);
      RenderValuesEach(hb, front.cache, def, last.key, last.values, model);
      assert h.cache == r.cache && h.result.value == Header(last.key, r.result.value);
      assert s.result.value == front.result.value + [h.result.value] && s.cache == h.cache;
      forall j, i | 0 <= j < n && 0 <= i < |hs[j].values|
        ensures && i < |s.result.value[j].values|
                && HeaderValue(def, hs[j].key, i) in s.cache
                && hb.apply(s.cache[HeaderValue(def, hs[j].key, i)], model) == Ok(s.result.value[j].values[i])
      {
        if j < n - 1 {
          assert hs[..n - 1][j] == hs[j];
          assert s.result.value[j] == front.result.value[j];
          assert HeaderValue(def, hs[j].key, i) in front.cache;
        }
      }
    }
  }

  /** `sourceOf` gives each header's own values under its key and index (so no two headers
      offer different text under one key and index). */
  predicate SourcesAgree(def: ResponseDefinition, hs: seq<Header>, sourceOf: CacheKey -> string) {
    forall j, i :: 0 <= j < |hs| && 0 <= i < |hs[j].values| ==> sourceOf(HeaderValue(def, hs[j].key, i)) == hs[j].values[i]
  }

  /** Rendering headers whose sources agree keeps a coherent cache coherent. */
  lemma {:induction false} RenderHeadersKeepCoherent(hb: Handlebars, cache: Cache, def: ResponseDefinition,
                                                     hs: seq<Header>, model: Model, sourceOf: CacheKey -> string)
    requires Coherent(cache, sourceOf) && SourcesAgree(def, hs, sourceOf)
    ensures Coherent(RenderHeaders(hb, cache, def, hs, model).cache, sourceOf)
    decreases |hs|
  {
    if hs != [] {
      var n := |hs|;
      var front := RenderHeaders(hb, cache, def, hs[..n - 1], model);
      assert SourcesAgree(def, hs[..n - 1], sourceOf) by {
        assert forall j :: 0 <= j < n - 1 ==> hs[..n - 1][j] == hs[j];
      }
      RenderHeadersKeepCoherent(hb, cache, def, hs[..n - 1], model, sourceOf);
      if front.result.Ok? {
        var last := hs[n - 1];
        assert forall i :: 0 <= i < |last.values| ==> sourceOf(HeaderValue(def, last.key, i)) == last.values[i];
        RenderValuesCoherent(hb, front.cache, def, last.key, last.values, model, sourceOf);
      }
    }
  }

  /** Each output value is the template compiled from the matching source value, applied
      to the model. */
  predicate RendersFromSources(hb: Handlebars, model: Model, sources: seq<string>, outputs: seq<string>) {
    |outputs| == |sources| && forall i :: 0 <= i < |sources| ==> hb.apply(Template(sources[i]), model) == Ok(outputs[i])
  }

  /** Over a coherent cache and headers whose sources agree, every rendered value is the
      template compiled from its own source value, applied to the model. */
  lemma {:induction false} RenderHeadersCoherent(hb: Handlebars, cache: Cache, def: ResponseDefinition,
                                                 hs: seq<Header>, model: Model, sourceOf: CacheKey -> string)
    requires Coherent(cache, sourceOf) && SourcesAgree(def, hs, sourceOf)
    ensures var s := RenderHeaders(hb, cache, def, hs, model);
            s.result.Ok? ==>
              forall j :: 0 <= j < |hs| ==> RendersFromSources(hb, model, hs[j].values, s.result.value[j].values)
  {
    var s := RenderHeaders(hb, cache, def, hs, model);
    RenderHeadersKeepCoherent(hb, cache, def, hs, model, sourceOf);
    RenderHeadersEach(hb, cache, def, hs, model);
    RenderHeadersShape(hb, cache, def, hs, model);
    if s.result.Ok? {
      var out := s.result.value;
      forall j | 0 <= j < |hs| ensures RendersFromSources(hb, model, hs[j].values, out[j].values) {
        forall i | 0 <= i < |hs[j].values| ensures hb.apply(Template(hs[j].values[i]), model) == Ok(out[j].values[i]) {
          var k := HeaderValue(def, hs[j].key, i);
          assert k in s.cache && hb.apply(s.cache[k], model) == Ok(out[j].values[i]);
          assert sourceOf(k) == hs[j].values[i];
        }
      }
    }
  }
}

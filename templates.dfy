/** The template engine the transformer drives: compiling, rendering, and the cache of
    compiled templates keyed by where each template came from. */
module Templates {
  import opened Results
  import opened Http
  import opened ContextModel

  /** A compiled template; it records the text it was compiled from. */
  datatype Template = Template(source: string)

  /** The Handlebars instance, seen from outside: compiling a text may fail (a syntax
      error), and applying a template to a model may fail or yields the rendered text. */
  datatype Handlebars = Handlebars(
    compileError: string -> Option<Failure>,
    apply: (Template, Model) -> Result<string>)

  /** A registered helper, opaque to the transformer. */
  datatype Helper = Helper(name: string)

  /** Where a cached template came from (`HttpTemplateCacheKey`): the inline body, a body
      file at a rendered path, value `index` of header `key`, or the proxy base URL, each
      scoped to one response definition. */
  datatype CacheKey =
    | InlineBody(definition: ResponseDefinition)
    | FileBody(definition: ResponseDefinition, path: string)
    | HeaderValue(definition: ResponseDefinition, key: string, index: nat)
    | ProxyUrl(definition: ResponseDefinition)

  type Cache = map<CacheKey, Template>

  /** The outcome of a step that may read and fill the cache. */
  datatype Step<+T> = Step(result: Result<T>, cache: Cache)

  /** `bigger` holds every template of `smaller`, unchanged. */
  predicate Extends(bigger: Cache, smaller: Cache) {
    forall k :: k in smaller ==> k in bigger && bigger[k] == smaller[k]
  }

  lemma ExtendsTransitive(c1: Cache, c2: Cache, c3: Cache)
    requires Extends(c2, c1) && Extends(c3, c2)
    ensures Extends(c3, c1)
  {
  }

  /** `handlebars.compileInline(content)`. */
  function Compile(hb: Handlebars, source: string): (r: Result<Template>)
    ensures r.Ok? <==> hb.compileError(source).None?
    ensures r.Ok? ==> r.value.source == source
    ensures r.Err? ==> r.failure == hb.compileError(source).value
  {
    match hb.compileError(source)
    case Some(f) => Err(f)
    case None => Ok(Template(source))
  }

  /** `getTemplate(key, content)`: a cached template is returned as it is; otherwise the
      content is compiled and stored under the key, unless compiling fails. */
  function Lookup(hb: Handlebars, cache: Cache, key: CacheKey, source: string): (s: Step<Template>)
    ensures key in cache ==> s == Step(Ok(cache[key]), cache)
    ensures key !in cache ==> s.result == Compile(hb, source)
    ensures s.result.Ok? ==> key in s.cache && s.cache[key] == s.result.value
    ensures s.cache.Keys == cache.Keys + (if s.result.Ok? then {key} else {})
    ensures Extends(s.cache, cache)
  {
    if key in cache then Step(Ok(cache[key]), cache)
    else match Compile(hb, source)
      case Err(f) => Step(Err(f), cache)
      case Ok(t) => Step(Ok(t), cache[key := t])
  }

  /** Renders `source` through the cache under `key`. */
  function RenderCached(hb: Handlebars, cache: Cache, key: CacheKey, source: string, model: Model): (s: Step<string>)
    ensures Extends(s.cache, cache)
    ensures s.cache.Keys <= cache.Keys + {key}
  {
    var t := Lookup(hb, cache, key, source);
    match t.result
    case Err(f) => Step(Err(f), t.cache)
    case Ok(template) => Step(hb.apply(template, model), t.cache)
  }

  /** Renders `source` without the cache (`getUncachedTemplate`). */
  function RenderUncached(hb: Handlebars, source: string, model: Model): (r: Result<string>)
    ensures hb.compileError(source).Some? ==> r == Err(hb.compileError(source).value)
    ensures hb.compileError(source).None? ==> r == hb.apply(Template(source), model)
  {
    match Compile(hb, source)
    case Err(f) => Err(f)
    case Ok(t) => hb.apply(t, model)
  }

  /** A cache hit answers from the stored template, whatever the compiler would now say
      about the source and whatever source is offered. */
  lemma HitIgnoresSource(hb: Handlebars, hb2: Handlebars, cache: Cache, key: CacheKey, source: string, source2: string)
    requires key in cache
    ensures Lookup(hb, cache, key, source) == Lookup(hb2, cache, key, source2)
  {
  }

  /** Memoisation: a successful lookup makes the next one under the same key a hit that
      returns the same template and leaves the cache as it was. */
  lemma SecondLookupHits(hb: Handlebars, cache: Cache, key: CacheKey, source: string, source2: string)
    requires Lookup(hb, cache, key, source).result.Ok?
    ensures var first := Lookup(hb, cache, key, source);
            Lookup(hb, first.cache, key, source2) == Step(first.result, first.cache)
  {
  }

  /** A failed compile leaves nothing behind, so the next lookup compiles again. */
  lemma FailedLookupRetries(hb: Handlebars, cache: Cache, key: CacheKey, source: string)
    requires Lookup(hb, cache, key, source).result.Err?
    ensures Lookup(hb, cache, key, source).cache == cache
    ensures key !in cache
  {
  }

  /** Every cached template was compiled from `sourceOf` its key. */
  predicate Coherent(cache: Cache, sourceOf: CacheKey -> string) {
    forall k :: k in cache ==> cache[k] == Template(sourceOf(k))
  }

  /** Lookups that always offer the same source for the same key keep the cache coherent,
      and then every template they return is the one compiled from the offered source. */
  lemma LookupKeepsCoherent(hb: Handlebars, cache: Cache, key: CacheKey, sourceOf: CacheKey -> string)
    requires Coherent(cache, sourceOf)
    ensures var s := Lookup(hb, cache, key, sourceOf(key));
            && Coherent(s.cache, sourceOf)
            && (s.result.Ok? ==> s.result.value == Template(sourceOf(key)))
  {
  }

  /** `TemplateEngine`: the Handlebars instance, the helpers, the configured bounds and
      the cache of compiled templates. */
  class TemplateEngine {
    const handlebars: Handlebars
    const helpers: map<string, Helper>
    const maxCacheEntries: Option<int>
    const permittedSystemKeys: Option<set<string>>
    var cache: Cache

    constructor (handlebars: Handlebars, helpers: map<string, Helper>,
                 maxCacheEntries: Option<int>, permittedSystemKeys: Option<set<string>>)
      ensures this.handlebars == handlebars && this.helpers == helpers
      ensures this.maxCacheEntries == maxCacheEntries
      ensures this.permittedSystemKeys == permittedSystemKeys
      ensures cache == map[]
    {
      this.handlebars := handlebars;
      this.helpers := helpers;
      this.maxCacheEntries := maxCacheEntries;
      this.permittedSystemKeys := permittedSystemKeys;
      cache := map[];
    }

    /** `getTemplate`: the memoising lookup. */
    method GetTemplate(key: CacheKey, content: string) returns (r: Result<Template>)
      modifies this
      ensures Step(r, cache) == Lookup(handlebars, old(cache), key, content)
    {
      var s := Lookup(handlebars, cache, key, content);
      r := s.result;
      cache := s.cache;
    }

    /** `getUncachedTemplate`: compiles without reading or filling the cache. */
    method GetUncachedTemplate(content: string) returns (r: Result<Template>)
      ensures r.Ok? <==> handlebars.compileError(content).None?
      ensures r.Ok? ==> r.value == Template(content)
      ensures r.Err? ==> r.failure == handlebars.compileError(content).value
    {
      r := Compile(handlebars, content);
    }

    /** `invalidateCache`: drops every cached template. */
    method InvalidateCache()
      modifies this
      ensures cache == map[]
    {
      cache := map[];
    }

    /** `getCacheSize`. */
    function CacheSize(): nat
      reads this
    {
      |cache|
    }
  }
}

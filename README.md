# WireMock response templating, modelled in Dafny

WireMock's `ResponseTemplateTransformer` turns a stub's response definition into the
response actually served. Its body, its header values and its proxy base URL are
Handlebars templates. They are rendered against a model holding the transformer
`parameters`, the `request`, and any extra entries a subclass adds.

Compiled templates are kept in a cache. The cache key says where a template came from: the
inline body, a body file at a rendered path, value `index` of header `key`, or the proxy
base URL, each scoped to one response definition. Removing a stub or resetting the stubs
empties the cache.

A Handlebars failure anywhere in the transform is contained. The response becomes a 500
with `Content-Type: text/plain` and a cleaned-up message as its body, and the same message
is appended to the serve event as an error sub-event. Every other failure propagates to the
caller.

The project has eleven modules, one per concern.

- `Results`, `Http` hold the value types:
  - response definitions, headers, bodies and transformer parameters;
  - the failure kinds and `Result`;
  - the serve event, whose sub-event list grows in place.
- `ContextModel` builds the template model with the semantics of Guava's
  `ImmutableMap.Builder`: entries go in order, and a repeated key fails the build.
- `Templates` covers the Handlebars instance, compiled templates, the cache keys and the
  memoising lookup, plus the `TemplateEngine` class whose cache is a map field.
- `ErrorMessages` models `cleanUpHandlebarsErrorMessage` as two faithful single-pass
  `replaceAll` scans.
- `ProxyHeaders` covers how rendered proxy headers are folded through an `HttpHeaders`
  multimap to one value per key.
- `Pipeline` holds what one `transform` computes, as functions of its inputs and of the cache
  it starts from. `HeaderRendering`, `TransformProperties` and `CacheReplay` hold the
  properties of those functions.
- `Transformer` is the imperative transformer:
  - a `ResponseDefinitionBuilder` that the transform fills step by step;
  - the transformer class, whose `Transform` loops over header values and proxy headers,
    and which also holds the lifecycle hooks;
  - the configuration `Builder`.

  `Transform`, `RenderDefinition`, `RenderBody`, `RenderHeaderValues`, `RenderHeaderList`,
  `RenderResponseHeaders` and `RenderProxy` are each proved against the matching
  `Pipeline` function. The builder methods, `ApplyTemplatedResponseBody` and
  `AttachProxyHeaders` state their effect on the builder directly.

Two behaviours of the code are worth knowing.
- **Proxy headers reuse response-header templates.** Proxy request headers are cached under
  the same `forHeader(definition, key, index)` keys as response headers (lines 140-141 and
  170-172). A proxy header that shares a key and an index with a response header is
  therefore rendered from the response header's cached template, and its own text is never
  compiled. Since rendering is deterministic in this model, it is sent with the response
  header's rendered text. The model keeps this behaviour. `ProxyHeadersReuseResponseHeaderTemplates`
  proves it for every definition, every cache, and every pair of headers sharing a key.
- **The clean-up can leave a token behind.** It is one leftmost, non-overlapping pass of
  `inline@[a-z0-9]+:`. Removing one token can join the text around it into a new token,
  which the same pass does not revisit.

## Model

| member | source | states |
|---|---|---|
| ContextModel.ResolveParameters | src/main/java/com/github/tomakehurst/wiremock/extension/responsetemplating/ResponseTemplateTransformer.java:88-89 | the definition's transformer parameters, or the empty parameters when it has none |
| ContextModel.BuildImmutableMap | src/main/java/com/github/tomakehurst/wiremock/extension/responsetemplating/ResponseTemplateTransformer.java:97-102 | building the model fails only with a failure that is not a template failure, so it is never caught |
| ContextModel.BuildImmutableMapKeys | src/main/java/com/github/tomakehurst/wiremock/extension/responsetemplating/ResponseTemplateTransformer.java:97-102 | a built map has exactly the keys of the entries put into it |
| ContextModel.BuildImmutableMapSucceedsIffDistinct | src/main/java/com/github/tomakehurst/wiremock/extension/responsetemplating/ResponseTemplateTransformer.java:97-102 | the build succeeds if and only if no key is put twice |
| ContextModel.BuildImmutableMapValues | src/main/java/com/github/tomakehurst/wiremock/extension/responsetemplating/ResponseTemplateTransformer.java:97-102 | a built map sends every entry's key to that entry's value |
| ContextModel.ModelEntriesDistinct | src/main/java/com/github/tomakehurst/wiremock/extension/responsetemplating/ResponseTemplateTransformer.java:98-101 | with distinct extra keys, the model entries are distinct if and only if no extra entry is named `parameters` or `request` |
| ContextModel.ModelEntriesKeys | src/main/java/com/github/tomakehurst/wiremock/extension/responsetemplating/ResponseTemplateTransformer.java:98-101 | every model key is `parameters`, `request` or an extra key |
| ContextModel.BuildModelSucceedsIffNoReservedKey | src/main/java/com/github/tomakehurst/wiremock/extension/responsetemplating/ResponseTemplateTransformer.java:97-102 | the model builds if and only if the extra entries use neither reserved name; otherwise the failure is not a template failure |
| ContextModel.BuiltModelContents | src/main/java/com/github/tomakehurst/wiremock/extension/responsetemplating/ResponseTemplateTransformer.java:97-102 | a built model maps `parameters` to the parameters, `request` to the request model and each extra key to its value, and holds nothing else |
| ContextModel.DefaultModel | src/main/java/com/github/tomakehurst/wiremock/extension/responsetemplating/ResponseTemplateTransformer.java:97-102 | with no extra entries the model always builds and holds exactly the two reserved entries |
| ContextModel.BuildModel | src/main/java/com/github/tomakehurst/wiremock/extension/responsetemplating/ResponseTemplateTransformer.java:97-102 | a failed build is never a template failure, so it is not caught; a built model maps `parameters` to the parameters and `request` to the request model |
| Pipeline.NoExtraModelElements | src/main/java/com/github/tomakehurst/wiremock/extension/responsetemplating/ResponseTemplateTransformer.java:202-209 | the default hook adds no entry for any request, definition, file source or parameters |
| Http.ServerError | src/main/java/com/github/tomakehurst/wiremock/extension/responsetemplating/ResponseTemplateTransformer.java:191-194 | status 500, the single header `Content-Type: text/plain`, the message as a plain text body, no body file and no proxying |
| Http.GetBoolean | src/main/java/com/github/tomakehurst/wiremock/extension/responsetemplating/ResponseTemplateTransformer.java:116-117 | an absent parameter gives the default, a boolean gives its value, and anything else is a failure that is not a template failure |
| Http.ResponseDefinition.SpecifiesTextBodyContent | src/main/java/com/github/tomakehurst/wiremock/extension/responsetemplating/ResponseTemplateTransformer.java:104 | holds exactly when a body is present and is not binary |
| Http.ResponseDefinition.SpecifiesBodyFile | src/main/java/com/github/tomakehurst/wiremock/extension/responsetemplating/ResponseTemplateTransformer.java:111 | holds only when a body file is named, and then the definition never also specifies text body content, so the `else if` branch never overlaps the `if` |
| Http.ServeEvent.constructor | src/main/java/com/github/tomakehurst/wiremock/extension/responsetemplating/ResponseTemplateTransformer.java:86-95 | a serve event starts with its request, definition and path template, and no sub-events |
| Http.ServeEvent.AppendSubEvent | src/main/java/com/github/tomakehurst/wiremock/extension/responsetemplating/ResponseTemplateTransformer.java:190 | the sub-event is added at the end and the earlier ones are kept |
| ErrorMessages.IdRun | src/main/java/com/github/tomakehurst/wiremock/extension/responsetemplating/ResponseTemplateTransformer.java:199 | the greedy `[a-z0-9]+` run: every character inside it is in the class, and the one after it is not |
| ErrorMessages.TokenAt | src/main/java/com/github/tomakehurst/wiremock/extension/responsetemplating/ResponseTemplateTransformer.java:199 | (helper) the length of the match of `inline@[a-z0-9]+:` at a position, within the text |
| ErrorMessages.TokenAtShape | src/main/java/com/github/tomakehurst/wiremock/extension/responsetemplating/ResponseTemplateTransformer.java:199 | a match is `inline@`, a non-empty run of `[a-z0-9]`, then `:` |
| ErrorMessages.StripTokens | src/main/java/com/github/tomakehurst/wiremock/extension/responsetemplating/ResponseTemplateTransformer.java:199 | the first replacement never lengthens the text |
| ErrorMessages.StripTokensChars | src/main/java/com/github/tomakehurst/wiremock/extension/responsetemplating/ResponseTemplateTransformer.java:199 | the first replacement only removes characters |
| ErrorMessages.StripTokensOfTokenFree | src/main/java/com/github/tomakehurst/wiremock/extension/responsetemplating/ResponseTemplateTransformer.java:199 | a text with no match is left unchanged |
| ErrorMessages.StripLeadingToken | src/main/java/com/github/tomakehurst/wiremock/extension/responsetemplating/ResponseTemplateTransformer.java:199 | a leading token is removed and the scan continues right after it |
| ErrorMessages.IdRunOfId | src/main/java/com/github/tomakehurst/wiremock/extension/responsetemplating/ResponseTemplateTransformer.java:199 | the run stops exactly at the first character outside `[a-z0-9]` |
| ErrorMessages.NoTokenWhereMismatch | src/main/java/com/github/tomakehurst/wiremock/extension/responsetemplating/ResponseTemplateTransformer.java:199 | no match starts where `inline@` is not spelled out |
| ErrorMessages.StripKeepsFirst | src/main/java/com/github/tomakehurst/wiremock/extension/responsetemplating/ResponseTemplateTransformer.java:199 | where `inline@` is not spelled out, the first character is kept and the scan moves on by one |
| ErrorMessages.StripKeepsHead | src/main/java/com/github/tomakehurst/wiremock/extension/responsetemplating/ResponseTemplateTransformer.java:199 | a character not followed by `nline@` is kept |
| ErrorMessages.TailIsTokenFree | src/main/java/com/github/tomakehurst/wiremock/extension/responsetemplating/ResponseTemplateTransformer.java:199 | `nline@` + id + `:` contains no match |
| ErrorMessages.FirstPassJoinsToken | src/main/java/com/github/tomakehurst/wiremock/extension/responsetemplating/ResponseTemplateTransformer.java:199 | one pass over `i` + `inline@x:` + `nline@y:` leaves the new token `inline@y:` |
| ErrorMessages.LineRest | src/main/java/com/github/tomakehurst/wiremock/extension/responsetemplating/ResponseTemplateTransformer.java:199 | `.*` stops exactly at the first Java line terminator |
| ErrorMessages.StripLineTails | src/main/java/com/github/tomakehurst/wiremock/extension/responsetemplating/ResponseTemplateTransformer.java:199 | the second replacement leaves no `\n` and never lengthens the text |
| ErrorMessages.FirstNewline | src/main/java/com/github/tomakehurst/wiremock/extension/responsetemplating/ResponseTemplateTransformer.java:199 | the position of the first `\n`, or the length when there is none |
| ErrorMessages.StripLineTailsSingleLine | src/main/java/com/github/tomakehurst/wiremock/extension/responsetemplating/ResponseTemplateTransformer.java:199 | when `\n` is the only line terminator, the second replacement keeps exactly the text before the first `\n` |
| ErrorMessages.StripLineTailsFromNewline | src/main/java/com/github/tomakehurst/wiremock/extension/responsetemplating/ResponseTemplateTransformer.java:199 | from a `\n` onwards, with no other terminator, everything is removed |
| ErrorMessages.StripLineTailsOfOneLine | src/main/java/com/github/tomakehurst/wiremock/extension/responsetemplating/ResponseTemplateTransformer.java:199 | a text without line terminators is left unchanged |
| ErrorMessages.CleanUpHandlebarsErrorMessage | src/main/java/com/github/tomakehurst/wiremock/extension/responsetemplating/ResponseTemplateTransformer.java:198-200 | the cleaned message contains no `\n` and is no longer than the raw message |
| ErrorMessages.CleanUpSingleLineTerminator | src/main/java/com/github/tomakehurst/wiremock/extension/responsetemplating/ResponseTemplateTransformer.java:198-200 | when `\n` is the only line terminator, the result is the token-stripped message up to its first `\n` |
| ErrorMessages.TokenIsOneLine | src/main/java/com/github/tomakehurst/wiremock/extension/responsetemplating/ResponseTemplateTransformer.java:199 | a token holds no line terminator |
| ErrorMessages.CleanUpIsNotIdempotent | src/main/java/com/github/tomakehurst/wiremock/extension/responsetemplating/ResponseTemplateTransformer.java:198-200 | cleaning `i` + `inline@x:` + `nline@y:` gives `inline@y:`, which still contains a token; cleaning that again removes it |
| ErrorMessages.CleanUpKeepsMessageLine | src/main/java/com/github/tomakehurst/wiremock/extension/responsetemplating/ResponseTemplateTransformer.java:198-200 | for `inline@<id>:` + message + `\n` + detail, exactly the message is kept |
| ErrorMessages.FirstNewlineAfter | src/main/java/com/github/tomakehurst/wiremock/extension/responsetemplating/ResponseTemplateTransformer.java:199 | in message + `\n` + detail, with no `\n` in the message, the first `\n` comes right after the message |
| Templates.ExtendsTransitive | src/main/java/com/github/tomakehurst/wiremock/extension/responsetemplating/ResponseTemplateTransformer.java:106-109 | a cache that only grows keeps every template it ever held |
| Templates.Compile | src/main/java/com/github/tomakehurst/wiremock/extension/responsetemplating/ResponseTemplateTransformer.java:106-109 | compiling succeeds if and only if the text has no syntax error; the template records the text, and the failure is the compiler's |
| Templates.Lookup | src/main/java/com/github/tomakehurst/wiremock/extension/responsetemplating/ResponseTemplateTransformer.java:106-109 | a hit returns the stored template and leaves the cache alone; a miss compiles, and only a success is stored under the key; no stored template is replaced |
| Templates.RenderCached | src/main/java/com/github/tomakehurst/wiremock/extension/responsetemplating/ResponseTemplateTransformer.java:106-110 | rendering through the cache keeps every stored template and adds at most the one key |
| Templates.RenderUncached | src/main/java/com/github/tomakehurst/wiremock/extension/responsetemplating/ResponseTemplateTransformer.java:112-114 | a syntax error fails with the compiler's failure; otherwise the result is the text's template applied to the model |
| Templates.HitIgnoresSource | src/main/java/com/github/tomakehurst/wiremock/extension/responsetemplating/ResponseTemplateTransformer.java:106-109 | a hit answers from the stored template, whatever text and compiler are offered |
| Templates.SecondLookupHits | src/main/java/com/github/tomakehurst/wiremock/extension/responsetemplating/ResponseTemplateTransformer.java:106-109 | after a successful lookup, the next lookup under that key returns the same template and changes nothing |
| Templates.FailedLookupRetries | src/main/java/com/github/tomakehurst/wiremock/extension/responsetemplating/ResponseTemplateTransformer.java:106-109 | a failed compile stores nothing, so the next lookup compiles again |
| Templates.LookupKeepsCoherent | src/main/java/com/github/tomakehurst/wiremock/extension/responsetemplating/ResponseTemplateTransformer.java:106-109 | lookups that offer one text per key keep every stored template equal to its key's text, and return that template |
| Templates.TemplateEngine.constructor | src/main/java/com/github/tomakehurst/wiremock/extension/responsetemplating/ResponseTemplateTransformer.java:65-66 | a new engine holds the configuration and an empty cache |
| Templates.TemplateEngine.GetTemplate | src/main/java/com/github/tomakehurst/wiremock/extension/responsetemplating/ResponseTemplateTransformer.java:106-109 | the returned template and the new cache are those of `Lookup` on the old cache |
| Templates.TemplateEngine.GetUncachedTemplate | src/main/java/com/github/tomakehurst/wiremock/extension/responsetemplating/ResponseTemplateTransformer.java:112-113 | compiles without touching the cache: a template of the text, or the compiler's failure |
| Templates.TemplateEngine.InvalidateCache | src/main/java/com/github/tomakehurst/wiremock/extension/responsetemplating/ResponseTemplateTransformer.java:228-236 | the cache is emptied |
| Pipeline.ReadTextFile | src/main/java/com/github/tomakehurst/wiremock/extension/responsetemplating/ResponseTemplateTransformer.java:121-125 | a readable file gives its text; a missing one is a failure that is not a template failure |
| Pipeline.RenderValues | src/main/java/com/github/tomakehurst/wiremock/extension/responsetemplating/ResponseTemplateTransformer.java:135-144 | rendering a header's values keeps every stored template, and on success yields one value per source value |
| Pipeline.RenderHeader | src/main/java/com/github/tomakehurst/wiremock/extension/responsetemplating/ResponseTemplateTransformer.java:134-146 | rendering one header keeps every stored template |
| Pipeline.RenderHeaders | src/main/java/com/github/tomakehurst/wiremock/extension/responsetemplating/ResponseTemplateTransformer.java:131-147 | rendering a list of headers keeps every stored template, and on success yields one header per source header |
| Pipeline.BodyStep | src/main/java/com/github/tomakehurst/wiremock/extension/responsetemplating/ResponseTemplateTransformer.java:104-128 | the body step only adds to the cache |
| Pipeline.HeadersStep | src/main/java/com/github/tomakehurst/wiremock/extension/responsetemplating/ResponseTemplateTransformer.java:130-149 | the headers step only adds to the cache |
| Pipeline.ProxyBuilt | src/main/java/com/github/tomakehurst/wiremock/extension/responsetemplating/ResponseTemplateTransformer.java:158-159 | the proxy builder's result has the new base URL, the attached headers (none when nothing was attached), and every other field of the draft |
| Pipeline.ProxyStep | src/main/java/com/github/tomakehurst/wiremock/extension/responsetemplating/ResponseTemplateTransformer.java:151-187 | the proxy step only adds to the cache |
| Pipeline.RenderSteps | src/main/java/com/github/tomakehurst/wiremock/extension/responsetemplating/ResponseTemplateTransformer.java:104-187 | the rendering steps together only add to the cache |
| Pipeline.Render | src/main/java/com/github/tomakehurst/wiremock/extension/responsetemplating/ResponseTemplateTransformer.java:85-187 | the whole `try` block only adds to the cache |
| Pipeline.Transformed | src/main/java/com/github/tomakehurst/wiremock/extension/responsetemplating/ResponseTemplateTransformer.java:84-196 | at most one sub-event; a sub-event always comes with the 500 response carrying its message, which has no `\n`; a thrown failure is never a template failure and records nothing |
| HeaderRendering.RenderValuesStopsAtFailure | src/main/java/com/github/tomakehurst/wiremock/extension/responsetemplating/ResponseTemplateTransformer.java:137-144 | once a value fails, the rest are not rendered: the failure and the cache are those at that value |
| HeaderRendering.RenderHeadersStopsAtFailure | src/main/java/com/github/tomakehurst/wiremock/extension/responsetemplating/ResponseTemplateTransformer.java:131-147 | once a header fails, the later headers are not rendered |
| HeaderRendering.RenderValuesNext | src/main/java/com/github/tomakehurst/wiremock/extension/responsetemplating/ResponseTemplateTransformer.java:137-144 | one more value renders under `forHeader(definition, key, index)` and is appended, or ends rendering with its failure |
| HeaderRendering.RenderHeadersNext | src/main/java/com/github/tomakehurst/wiremock/extension/responsetemplating/ResponseTemplateTransformer.java:131-147 | one more header is rendered and appended, or ends rendering with its failure |
| HeaderRendering.RenderValuesEach | src/main/java/com/github/tomakehurst/wiremock/extension/responsetemplating/ResponseTemplateTransformer.java:138-143 | value `i` of a rendered header is what the template left cached under `forHeader(definition, key, i)` renders to |
| HeaderRendering.RenderValuesCoherent | src/main/java/com/github/tomakehurst/wiremock/extension/responsetemplating/ResponseTemplateTransformer.java:138-143 | over a cache that holds each key's own text, value `i` renders as the template of source value `i`, and the cache keeps that property |
| HeaderRendering.RenderHeadersShape | src/main/java/com/github/tomakehurst/wiremock/extension/responsetemplating/ResponseTemplateTransformer.java:131-147 | rendered headers keep the keys, the order and the number of values of the source headers |
| HeaderRendering.RenderHeadersEach | src/main/java/com/github/tomakehurst/wiremock/extension/responsetemplating/ResponseTemplateTransformer.java:131-147 | value `i` of rendered header `j` is what the template cached under `forHeader(definition, key of j, i)` renders to |
| HeaderRendering.RenderHeadersKeepCoherent | src/main/java/com/github/tomakehurst/wiremock/extension/responsetemplating/ResponseTemplateTransformer.java:131-147 | headers that offer one text per key and index keep a cache that holds each key's own text |
| HeaderRendering.RenderHeadersCoherent | src/main/java/com/github/tomakehurst/wiremock/extension/responsetemplating/ResponseTemplateTransformer.java:131-148 | over such a cache, every rendered value is its own source value's template applied to the model |
| ProxyHeaders.ValuePairs | src/main/java/com/github/tomakehurst/wiremock/extension/responsetemplating/ResponseTemplateTransformer.java:178 | a header holds one (key, value) pair per value, in order |
| ProxyHeaders.Pairs | src/main/java/com/github/tomakehurst/wiremock/extension/responsetemplating/ResponseTemplateTransformer.java:178 | every value of every rendered proxy header becomes a (key, value) pair of the multimap |
| ProxyHeaders.FirstValues | src/main/java/com/github/tomakehurst/wiremock/extension/responsetemplating/ResponseTemplateTransformer.java:179-181 | the `keys()` loop attaches at most one header per pair, and attaches none exactly when there are no pairs |
| ProxyHeaders.Folded | src/main/java/com/github/tomakehurst/wiremock/extension/responsetemplating/ResponseTemplateTransformer.java:178-182 | the headers attached for rendered proxy headers have distinct keys and exactly one value each |
| ProxyHeaders.FirstValuesShape | src/main/java/com/github/tomakehurst/wiremock/extension/responsetemplating/ResponseTemplateTransformer.java:178-182 | attached proxy headers have distinct keys, exactly one value each, and exactly the keys that have a value |
| ProxyHeaders.FirstValuesAreFirst | src/main/java/com/github/tomakehurst/wiremock/extension/responsetemplating/ResponseTemplateTransformer.java:179-182 | each attached header carries the first value given for its key |
| ProxyHeaders.PairsKeys | src/main/java/com/github/tomakehurst/wiremock/extension/responsetemplating/ResponseTemplateTransformer.java:178 | a key has a pair if and only if some header with that key has a value |
| ProxyHeaders.FoldedOfDistinct | src/main/java/com/github/tomakehurst/wiremock/extension/responsetemplating/ResponseTemplateTransformer.java:178-182 | for headers with distinct keys, exactly the headers with a value are attached, in order, each cut to its first value |
| ProxyHeaders.FoldedAppend | src/main/java/com/github/tomakehurst/wiremock/extension/responsetemplating/ResponseTemplateTransformer.java:178-182 | among headers with distinct keys, one more header adds its first value at the end, or nothing when it has no value |
| ProxyHeaders.FirstValuesAppendNew | src/main/java/com/github/tomakehurst/wiremock/extension/responsetemplating/ResponseTemplateTransformer.java:179-181 | a pair with a key not seen before adds one header carrying that value at the end |
| ProxyHeaders.PairsOfAppend | src/main/java/com/github/tomakehurst/wiremock/extension/responsetemplating/ResponseTemplateTransformer.java:178 | one more header adds exactly its pairs at the end |
| ProxyHeaders.FirstValuesAfterKnownKey | src/main/java/com/github/tomakehurst/wiremock/extension/responsetemplating/ResponseTemplateTransformer.java:179-182 | further values for a key already seen change nothing |
| TransformProperties.InlineBodyTakesPrecedence | src/main/java/com/github/tomakehurst/wiremock/extension/responsetemplating/ResponseTemplateTransformer.java:104-110 | an inline body wins: no file is read, the body is what the template cached under `forInlineBody` renders to, the JSON flag is kept, and nothing else changes |
| TransformProperties.BodyFileTemplatingDisabled | src/main/java/com/github/tomakehurst/wiremock/extension/responsetemplating/ResponseTemplateTransformer.java:111-119 | with `disableBodyFileTemplating` true, the rendered name replaces the file name, no file is read, and the cache is untouched |
| TransformProperties.BodyFileRendered | src/main/java/com/github/tomakehurst/wiremock/extension/responsetemplating/ResponseTemplateTransformer.java:120-127 | otherwise the file's text, rendered under `forFileBody(definition, path)`, becomes a plain text body, and only that key can be added |
| TransformProperties.BodyFileFailures | src/main/java/com/github/tomakehurst/wiremock/extension/responsetemplating/ResponseTemplateTransformer.java:116-125 | a non-boolean flag, or a missing file, fails with a failure that is not a template failure, and leaves the cache alone |
| TransformProperties.NeitherBodyPassesThrough | src/main/java/com/github/tomakehurst/wiremock/extension/responsetemplating/ResponseTemplateTransformer.java:104-128 | a definition with neither an inline body nor a body file leaves the body step with its draft and its cache unchanged, for all inputs |
| TransformProperties.NeitherBodyKeepsBody | src/main/java/com/github/tomakehurst/wiremock/extension/responsetemplating/ResponseTemplateTransformer.java:104-187 | for a definition with neither kind of body, rendering is the headers step then the proxy step, and a successful render keeps the definition's body and body file name |
| TransformProperties.NothingToRenderPassesThrough | src/main/java/com/github/tomakehurst/wiremock/extension/responsetemplating/ResponseTemplateTransformer.java:91-187 | for every hook whose extra entries have distinct keys and avoid `parameters` and `request`, a definition with nothing to render comes back unchanged, with the cache untouched and no sub-event |
| TransformProperties.NothingToRenderPassesThroughByDefault | src/main/java/com/github/tomakehurst/wiremock/extension/responsetemplating/ResponseTemplateTransformer.java:91-209 | with the default hook, a definition with nothing to render always comes back unchanged, with the cache untouched and no sub-event |
| TransformProperties.ReservedModelKeyIsThrown | src/main/java/com/github/tomakehurst/wiremock/extension/responsetemplating/ResponseTemplateTransformer.java:97-102 | an extra entry named `parameters` or `request` is thrown before any template is touched, and records nothing |
| TransformProperties.TemplateFailureIsContained | src/main/java/com/github/tomakehurst/wiremock/extension/responsetemplating/ResponseTemplateTransformer.java:188-195 | any template failure gives the 500 text/plain response whose body is the cleaned message, and exactly one matching sub-event |
| TransformProperties.BodySyntaxErrorStopsEverything | src/main/java/com/github/tomakehurst/wiremock/extension/responsetemplating/ResponseTemplateTransformer.java:104-110 | a syntax error in an inline body ends in that response with the cache unchanged: the headers are never compiled |
| TransformProperties.ProxyHeaderReusesResponseHeaderTemplate | src/main/java/com/github/tomakehurst/wiremock/extension/responsetemplating/ResponseTemplateTransformer.java:138-142 | a proxy header `k: w` beside a response header `k: v` is sent with `v` rendered, and `w` is never compiled |
| TransformProperties.HeadersStepResult | src/main/java/com/github/tomakehurst/wiremock/extension/responsetemplating/ResponseTemplateTransformer.java:130-149 | without headers the draft and the cache are unchanged; with headers the new headers are exactly the rendered ones, keeping keys, order and value counts, with value `i` of header `j` rendered from the template cached under `forHeader(definition, key, i)` |
| TransformProperties.ProxyStepResult | src/main/java/com/github/tomakehurst/wiremock/extension/responsetemplating/ResponseTemplateTransformer.java:151-187 | without a proxy base URL the draft and the cache are unchanged; otherwise the URL is rendered from the template cached under `forProxyUrl`, the attached headers are none without proxy headers and otherwise the fold of the proxy headers rendered over the cache the URL step left (none when the fold is empty), and every other field is kept |
| TransformProperties.ProxyHeadersReuseResponseHeaderTemplates | src/main/java/com/github/tomakehurst/wiremock/extension/responsetemplating/ResponseTemplateTransformer.java:138-174 | for any definition and cache, value `i` of a proxy header with key `k` renders to exactly what value `i` of the response header with key `k` rendered to, whatever the proxy header says (keys at lines 140-141 and 170-172) |
| TransformProperties.OneHeaderRenders | src/main/java/com/github/tomakehurst/wiremock/extension/responsetemplating/ResponseTemplateTransformer.java:131-147 | a single one-value header renders through the cache under `forHeader(definition, key, 0)` |
| TransformProperties.FoldedSingle | src/main/java/com/github/tomakehurst/wiremock/extension/responsetemplating/ResponseTemplateTransformer.java:178-182 | a single one-value proxy header is attached as it is |
| CacheReplay.LookupReplays | src/main/java/com/github/tomakehurst/wiremock/extension/responsetemplating/ResponseTemplateTransformer.java:106-109 | a lookup over the cache an earlier lookup left repeats the earlier result and changes nothing |
| CacheReplay.RenderCachedReplays | src/main/java/com/github/tomakehurst/wiremock/extension/responsetemplating/ResponseTemplateTransformer.java:106-110 | the same for rendering through the cache |
| CacheReplay.RenderValuesReplays | src/main/java/com/github/tomakehurst/wiremock/extension/responsetemplating/ResponseTemplateTransformer.java:135-144 | the same for a header's values |
| CacheReplay.RenderHeaderReplays | src/main/java/com/github/tomakehurst/wiremock/extension/responsetemplating/ResponseTemplateTransformer.java:134-146 | the same for one header |
| CacheReplay.RenderHeadersReplays | src/main/java/com/github/tomakehurst/wiremock/extension/responsetemplating/ResponseTemplateTransformer.java:131-147 | the same for a list of headers |
| CacheReplay.BodyStepReplays | src/main/java/com/github/tomakehurst/wiremock/extension/responsetemplating/ResponseTemplateTransformer.java:104-128 | the same for the body |
| CacheReplay.HeadersStepReplays | src/main/java/com/github/tomakehurst/wiremock/extension/responsetemplating/ResponseTemplateTransformer.java:130-149 | the same for the response headers |
| CacheReplay.ProxyStepReplays | src/main/java/com/github/tomakehurst/wiremock/extension/responsetemplating/ResponseTemplateTransformer.java:151-187 | the same for the proxy URL and proxy headers |
| CacheReplay.RenderStepsReplays | src/main/java/com/github/tomakehurst/wiremock/extension/responsetemplating/ResponseTemplateTransformer.java:104-187 | the same for all rendering steps |
| CacheReplay.TransformReplays | src/main/java/com/github/tomakehurst/wiremock/extension/responsetemplating/ResponseTemplateTransformer.java:84-196 | transforming the same event again over the cache the first transform left gives the same outcome and sub-events, and leaves that cache as it is |
| Transformer.ResponseDefinitionBuilder.Like | src/main/java/com/github/tomakehurst/wiremock/extension/responsetemplating/ResponseTemplateTransformer.java:91-92 | the builder starts as a copy of the definition, not proxying, with no headers attached |
| Transformer.ResponseDefinitionBuilder.WithResponseBody | src/main/java/com/github/tomakehurst/wiremock/extension/responsetemplating/ResponseTemplateTransformer.java:221 | replaces only the body |
| Transformer.ResponseDefinitionBuilder.WithBodyFile | src/main/java/com/github/tomakehurst/wiremock/extension/responsetemplating/ResponseTemplateTransformer.java:119 | replaces only the body file name |
| Transformer.ResponseDefinitionBuilder.WithHeaders | src/main/java/com/github/tomakehurst/wiremock/extension/responsetemplating/ResponseTemplateTransformer.java:148 | replaces only the headers |
| Transformer.ResponseDefinitionBuilder.ProxiedFrom | src/main/java/com/github/tomakehurst/wiremock/extension/responsetemplating/ResponseTemplateTransformer.java:158-159 | sets the proxy base URL and starts proxying with no request headers attached |
| Transformer.ResponseDefinitionBuilder.WithAdditionalRequestHeader | src/main/java/com/github/tomakehurst/wiremock/extension/responsetemplating/ResponseTemplateTransformer.java:180-181 | attaches one header with one value at the end, and changes nothing else |
| Transformer.ResponseDefinitionBuilder.Build | src/main/java/com/github/tomakehurst/wiremock/extension/responsetemplating/ResponseTemplateTransformer.java:184-186 | a plain builder gives its definition; a proxy builder attaches its request headers, or none when none were added, and changes no other field |
| Transformer.ResponseTemplateTransformer.constructor | src/main/java/com/github/tomakehurst/wiremock/extension/responsetemplating/ResponseTemplateTransformer.java:56-67 | a new transformer holds its flag and file source, and a new engine with the configuration and an empty cache |
| Transformer.ResponseTemplateTransformer.WithExtraModelElements | src/main/java/com/github/tomakehurst/wiremock/extension/responsetemplating/ResponseTemplateTransformer.java:202-209 | a subclass that overrides `addExtraModelElements`: the same, with its hook |
| Transformer.ResponseTemplateTransformer.Transform | src/main/java/com/github/tomakehurst/wiremock/extension/responsetemplating/ResponseTemplateTransformer.java:84-196 | the outcome, the new cache and the appended sub-events are exactly those of `Pipeline.Transformed` on the old cache |
| Transformer.ResponseTemplateTransformer.RenderDefinition | src/main/java/com/github/tomakehurst/wiremock/extension/responsetemplating/ResponseTemplateTransformer.java:85-187 | the result and the new cache are those of `Pipeline.Render` |
| Transformer.ResponseTemplateTransformer.ApplyTemplatedResponseBody | src/main/java/com/github/tomakehurst/wiremock/extension/responsetemplating/ResponseTemplateTransformer.java:211-222 | either the rendered text becomes the body with the given JSON flag, or the builder is untouched and the failure is returned |
| Transformer.ResponseTemplateTransformer.RenderBody | src/main/java/com/github/tomakehurst/wiremock/extension/responsetemplating/ResponseTemplateTransformer.java:104-128 | the draft and the cache evolve as `Pipeline.BodyStep` says |
| Transformer.ResponseTemplateTransformer.RenderHeaderValues | src/main/java/com/github/tomakehurst/wiremock/extension/responsetemplating/ResponseTemplateTransformer.java:135-146 | the loop over a header's values gives `Pipeline.RenderValues` |
| Transformer.ResponseTemplateTransformer.RenderHeaderList | src/main/java/com/github/tomakehurst/wiremock/extension/responsetemplating/ResponseTemplateTransformer.java:131-147 | the loop over the headers gives `Pipeline.RenderHeaders` |
| Transformer.ResponseTemplateTransformer.RenderResponseHeaders | src/main/java/com/github/tomakehurst/wiremock/extension/responsetemplating/ResponseTemplateTransformer.java:130-149 | the draft and the cache evolve as `Pipeline.HeadersStep` says |
| Transformer.ResponseTemplateTransformer.AttachProxyHeaders | src/main/java/com/github/tomakehurst/wiremock/extension/responsetemplating/ResponseTemplateTransformer.java:178-182 | the loop over the multimap's keys attaches exactly the folded headers, in order |
| Transformer.ResponseTemplateTransformer.RenderProxy | src/main/java/com/github/tomakehurst/wiremock/extension/responsetemplating/ResponseTemplateTransformer.java:151-187 | what the builder then builds, and the cache, are those of `Pipeline.ProxyStep` |
| Transformer.ResponseTemplateTransformer.AfterStubRemoved | src/main/java/com/github/tomakehurst/wiremock/extension/responsetemplating/ResponseTemplateTransformer.java:228-231 | the cache is emptied, so its size is 0 |
| Transformer.ResponseTemplateTransformer.AfterStubsReset | src/main/java/com/github/tomakehurst/wiremock/extension/responsetemplating/ResponseTemplateTransformer.java:233-236 | the cache is emptied, so its size is 0 |
| Transformer.Builder.constructor | src/main/java/com/github/tomakehurst/wiremock/extension/responsetemplating/ResponseTemplateTransformer.java:246-251 | defaults: global, no helpers, no cache bound, no permitted system keys |
| Transformer.Builder.Global | src/main/java/com/github/tomakehurst/wiremock/extension/responsetemplating/ResponseTemplateTransformer.java:253-256 | sets only the global flag |
| Transformer.Builder.SetHandlebars | src/main/java/com/github/tomakehurst/wiremock/extension/responsetemplating/ResponseTemplateTransformer.java:258-261 | sets only the Handlebars instance |
| Transformer.Builder.Helpers | src/main/java/com/github/tomakehurst/wiremock/extension/responsetemplating/ResponseTemplateTransformer.java:263-266 | replaces only the helpers |
| Transformer.Builder.AddHelper | src/main/java/com/github/tomakehurst/wiremock/extension/responsetemplating/ResponseTemplateTransformer.java:268-271 | registers one helper, replacing one of the same name, and changes nothing else |
| Transformer.Builder.MaxCacheEntries | src/main/java/com/github/tomakehurst/wiremock/extension/responsetemplating/ResponseTemplateTransformer.java:273-276 | sets only the cache bound |
| Transformer.Builder.PermittedSystemKeys | src/main/java/com/github/tomakehurst/wiremock/extension/responsetemplating/ResponseTemplateTransformer.java:278-281 | sets only the permitted system keys |
| Transformer.Builder.PermittedSystemKeysOf | src/main/java/com/github/tomakehurst/wiremock/extension/responsetemplating/ResponseTemplateTransformer.java:283-286 | the varargs form: the set of the given keys |
| Transformer.Builder.Build | src/main/java/com/github/tomakehurst/wiremock/extension/responsetemplating/ResponseTemplateTransformer.java:288-297 | a new transformer with the collected configuration, the server's file source and an empty cache |
| Transformer.GlobalTransformer | src/main/java/com/github/tomakehurst/wiremock/extension/responsetemplating/ResponseTemplateTransformer.java:69-71 | the default configuration with the given global flag |

Four points of the code's behaviour that a reader might not expect, all kept in the model
(lines 188 and 199):
- Only `HandlebarsException` is caught. A missing body file, a non-boolean
  `disableBodyFileTemplating` and a duplicate model key are thrown on to the caller.
- The template identifier matched is `[a-z0-9]+`, not only hexadecimal digits.
- The message is not truncated at its first line break. Every `\n` is removed together with
  the rest of its line, so a `\r` or another Java line terminator (`\u0085`, `\u2028`,
  `\u2029`) and the text after it survive.
- The code also does not guarantee a body free of `inline@…:` tokens, because of
  `CleanUpIsNotIdempotent`.

## Left out

- Handlebars itself: its parser, its helpers, the `RequestTemplateModel` contents and the
  `HandlebarsOptimizedTemplate` wrapper. They are opaque: a compile function that may report
  a syntax error, and an apply function that may fail.
- The engine's size-bounded eviction under `maxCacheEntries`, and the engine's thread
  safety. The cache is an unbounded map and `maxCacheEntries` is only stored.
- `permittedSystemKeys` and the registered helpers are stored but have no effect, since they
  act inside Handlebars.
- File I/O: the file source is a function from a path to the file's text, or to nothing
  when the file cannot be read.
- The body's encoding. A JSON body is recorded as text with a JSON flag; UTF-8 byte encoding
  and `Body.fromOneOf` are not modelled.
- Rendering is deterministic: applying a template to a model always gives the same result.
  Helpers whose output differs from call to call, such as `now` or `randomValue`, are not
  modelled. `CacheReplay.TransformReplays` relies on this. So does the fact that a proxy
  header sharing a response header's key and index is sent with the same text: in Java it
  applies the shared template a second time.
- `ResponseDefinition.specifiesTextBodyContent` and `specifiesBodyFile`, as well as
  `ResponseDefinitionBuilder`, `HttpHeaders` and `Parameters.getBoolean`, are not part of
  this model. They are modelled as follows:
  - `specifiesTextBodyContent` holds when a body is present and is not binary;
  - `specifiesBodyFile` holds when a body file is named and no body is given;
  - `like` copies the definition;
  - each `with…` setter replaces one field;
  - `proxiedFrom` starts with no attached headers;
  - `build` attaches none when none were added;
  - `HttpHeaders.keys()` lists keys in first-occurrence order, and header keys are compared
    case-sensitively, unlike WireMock's case-insensitive keys;
  - a non-boolean parameter is a failure that is not a template failure.
- CleanUpHandlebarsErrorMessage: a Handlebars exception whose message is null is not
  modelled. In Java, `replaceAll` on that null message throws a `NullPointerException` from
  inside the `catch` block, so the transform fails instead of answering with a 500. The
  model's failure message is always a string.
- Java exception wrapping. A duplicate model key is a failure that is not a template
  failure, and its message text is approximate.
- `getStubMapping().getRequest().getUrlMatcher().getPathTemplate()`: the path template is
  a value carried by the serve event.
- `ExtensionFactory` wiring. `Builder.Build` takes the server's file source directly;
  `builder()` is the `Builder` constructor.
- `applyGlobally`, `getName`, `getCacheSize` and `getMaxCacheEntries` are plain accessors of
  the transformer's fields and state nothing else.
- `helpers` aliasing. The Java builder mutates the map it was given; the model copies maps
  by value.

/** The template model the transformer renders against: the reserved entries
    `parameters` and `request`, followed by the entries of the `addExtraModelElements` hook,
    collected by an `ImmutableMap.Builder` that refuses a repeated key. */
module ContextModel {
  import opened Results
  import opened Http

  /** `RequestTemplateModel.from(request, pathTemplate)`, kept opaque: it records its inputs. */
  datatype RequestModel = RequestModel(request: Request, pathTemplate: Option<string>)

  /** A value in the template model; extra entries carry an opaque tag. */
  datatype ModelValue =
    | ParametersValue(params: Parameters)
    | RequestValue(model: RequestModel)
    | ExtraValue(tag: string)

  type Model = map<string, ModelValue>

  type Entry = (string, ModelValue)

  const ParametersKey := "parameters"
  const RequestKey := "request"

  /** `firstNonNull(responseDefinition.getTransformerParameters(), Parameters.empty())`. */
  function ResolveParameters(def: ResponseDefinition): (p: Parameters)
    ensures def.transformerParameters.Some? ==> p == def.transformerParameters.value
    ensures def.transformerParameters.None? ==> p == map[]
  {
    def.transformerParameters.GetOr(map[])
  }

  /** No key occurs twice among the entries. */
  predicate DistinctKeys(entries: seq<Entry>) {
    forall i, j :: 0 <= i < j < |entries| ==> entries[i].0 != entries[j].0
  }

  /** The entries mention `key`. */
  predicate HasKey(entries: seq<Entry>, key: string) {
    exists i :: 0 <= i < |entries| && entries[i].0 == key
  }

  /** `ImmutableMap.Builder`: the entries are put in order and `build()` fails on a repeated
      key (Guava's `IllegalArgumentException`, not a template failure). */
  function BuildImmutableMap(entries: seq<Entry>): (r: Result<Model>)
    ensures r.Err? ==> r.failure.OtherFailure?
    decreases |entries|
  {
    if entries == [] then Ok(map[])
    else
      var last := entries[|entries| - 1];
      match BuildImmutableMap(entries[..|entries| - 1])
      case Err(f) => Err(f)
      case Ok(m) =>
        if last.0 in m then Err(OtherFailure("Multiple entries with same key: " + last.0))
        else Ok(m[last.0 := last.1])
  }

  /** A built map has exactly the keys of the entries. */
  lemma {:induction false} BuildImmutableMapKeys(entries: seq<Entry>)
    ensures BuildImmutableMap(entries).Ok? ==>
              forall k :: k in BuildImmutableMap(entries).value <==> HasKey(entries, k)
    decreases |entries|
  {
    if entries != [] {
      var front, last := entries[..|entries| - 1], entries[|entries| - 1];
      BuildImmutableMapKeys(front);
      assert forall i :: 0 <= i < |front| ==> entries[i] == front[i];
      if BuildImmutableMap(entries).Ok? {
        var m := BuildImmutableMap(front).value;
        forall k ensures k in m[last.0 := last.1] <==> HasKey(entries, k) {
          if HasKey(entries, k) {
            var i :| 0 <= i < |entries| && entries[i].0 == k;
            if i < |front| {
              assert front[i].0 == k;
            }
          }
        }
      }
    }
  }

  /** The build succeeds exactly when no key is repeated. */
  lemma {:induction false} BuildImmutableMapSucceedsIffDistinct(entries: seq<Entry>)
    ensures BuildImmutableMap(entries).Ok? <==> DistinctKeys(entries)
    decreases |entries|
  {
    if entries != [] {
      var n := |entries|;
      var front, last := entries[..n - 1], entries[n - 1];
      BuildImmutableMapSucceedsIffDistinct(front);
      BuildImmutableMapKeys(front);
      assert forall i :: 0 <= i < |front| ==> entries[i] == front[i];
      if BuildImmutableMap(front).Err? {
        var i, j :| 0 <= i < j < |front| && front[i].0 == front[j].0;
        assert entries[i].0 == entries[j].0;
      } else if HasKey(front, last.0) {
        var i :| 0 <= i < |front| && front[i].0 == last.0;
        assert entries[i].0 == entries[n - 1].0;
      } else {
        forall i, j | 0 <= i < j < n ensures entries[i].0 != entries[j].0 {
          if j < n - 1 {
            assert entries[i] == front[i] && entries[j] == front[j];
          } else {
            assert entries[i] == front[i];
          }
        }
      }
    }
  }

  /** A built map sends each entry's key to that entry's value. */
  lemma {:induction false} BuildImmutableMapValues(entries: seq<Entry>)
    ensures var r := BuildImmutableMap(entries);
            r.Ok? ==> forall i :: 0 <= i < |entries| ==> entries[i].0 in r.value && r.value[entries[i].0] == entries[i].1
    decreases |entries|
  {
    if entries != [] {
      var n := |entries|;
      var front, last := entries[..n - 1], entries[n - 1];
      BuildImmutableMapValues(front);
      if BuildImmutableMap(entries).Ok? {
        var m := BuildImmutableMap(front).value;
        assert last.0 !in m;
        forall i | 0 <= i < n ensures entries[i].0 in m[last.0 := last.1] && m[last.0 := last.1][entries[i].0] == entries[i].1 {
          if i < n - 1 {
            assert entries[i] == front[i];
          }
        }
      }
    }
  }

  /** The model of one transform: `parameters`, then `request`, then the extras. */
  function BuildModel(params: Parameters, request: RequestModel, extras: seq<Entry>): (r: Result<Model>)
    ensures r.Err? ==> r.failure.OtherFailure?
    ensures r.Ok? ==> && ParametersKey in r.value && r.value[ParametersKey] == ParametersValue(params)
                      && RequestKey in r.value && r.value[RequestKey] == RequestValue(request)
  {
    var entries := ModelEntries(params, request, extras);
    BuildImmutableMapValues(entries);
    assert entries[0] == (ParametersKey, ParametersValue(params)) && entries[1] == (RequestKey, RequestValue(request));
    BuildImmutableMap(entries)
  }

  /** The reserved entries followed by the extras. */
  function ModelEntries(params: Parameters, request: RequestModel, extras: seq<Entry>): (entries: seq<Entry>) {
    [(ParametersKey, ParametersValue(params)), (RequestKey, RequestValue(request))] + extras
  }

  /** The entries have distinct keys exactly when the extras do and use no reserved name. */
  lemma ModelEntriesDistinct(params: Parameters, request: RequestModel, extras: seq<Entry>)
    requires DistinctKeys(extras)
    ensures DistinctKeys(ModelEntries(params, request, extras)) <==> !HasKey(extras, ParametersKey) && !HasKey(extras, RequestKey)
  {
    var all := ModelEntries(params, request, extras);
    assert all[0].0 == ParametersKey && all[1].0 == RequestKey;
    assert forall i :: 0 <= i < |extras| ==> all[i + 2] == extras[i];
    if HasKey(extras, ParametersKey) {
      var i :| 0 <= i < |extras| && extras[i].0 == ParametersKey;
      assert all[0].0 == all[i + 2].0;
    } else if HasKey(extras, RequestKey) {
      var i :| 0 <= i < |extras| && extras[i].0 == RequestKey;
      assert all[1].0 == all[i + 2].0;
    } else {
      forall i, j | 0 <= i < j < |all| ensures all[i].0 != all[j].0 {
        if i >= 2 {
          assert all[i] == extras[i - 2] && all[j] == extras[j - 2];
        } else if j >= 2 {
          assert all[j] == extras[j - 2];
        }
      }
    }
  }

  /** Every key of the entries is reserved or an extra key. */
  lemma ModelEntriesKeys(params: Parameters, request: RequestModel, extras: seq<Entry>, k: string)
    requires HasKey(ModelEntries(params, request, extras), k)
    ensures k == ParametersKey || k == RequestKey || HasKey(extras, k)
  {
    var all := ModelEntries(params, request, extras);
    var i :| 0 <= i < |all| && all[i].0 == k;
    if i >= 2 {
      assert all[i] == extras[i - 2];
    }
  }

  /** For extras with distinct keys (they come from a Java `Map`), the model builds exactly
      when no extra entry uses a reserved name; a clash is a failure that is not a
      template failure. */
  lemma BuildModelSucceedsIffNoReservedKey(params: Parameters, request: RequestModel, extras: seq<Entry>)
    requires DistinctKeys(extras)
    ensures BuildModel(params, request, extras).Ok? <==> !HasKey(extras, ParametersKey) && !HasKey(extras, RequestKey)
    ensures BuildModel(params, request, extras).Err? ==> BuildModel(params, request, extras).failure.OtherFailure?
  {
    ModelEntriesDistinct(params, request, extras);
    BuildImmutableMapSucceedsIffDistinct(ModelEntries(params, request, extras));
  }

  /** A model that builds maps `parameters` and `request` to their values, holds every
      extra entry, and nothing else. */
  lemma BuiltModelContents(params: Parameters, request: RequestModel, extras: seq<Entry>)
    requires BuildModel(params, request, extras).Ok?
    ensures var m := BuildModel(params, request, extras).value;
            && ParametersKey in m && m[ParametersKey] == ParametersValue(params)
            && RequestKey in m && m[RequestKey] == RequestValue(request)
            && (forall i :: 0 <= i < |extras| ==> extras[i].0 in m && m[extras[i].0] == extras[i].1)
            && (forall k :: k in m ==> k == ParametersKey || k == RequestKey || HasKey(extras, k))
  {
    var all := ModelEntries(params, request, extras);
    var m := BuildImmutableMap(all).value;
    BuildImmutableMapKeys(all);
    BuildImmutableMapValues(all);
    assert all[0] == (ParametersKey, ParametersValue(params));
    assert all[1] == (RequestKey, RequestValue(request));
    assert forall i :: 0 <= i < |extras| ==> all[i + 2] == extras[i];
    forall k | k in m ensures k == ParametersKey || k == RequestKey || HasKey(extras, k) {
      ModelEntriesKeys(params, request, extras, k);
    }
  }

  /** With the default hook (no extra entries) the model always builds and holds exactly
      the two reserved entries. */
  lemma DefaultModel(params: Parameters, request: RequestModel)
    ensures BuildModel(params, request, []) == Ok(map[ParametersKey := ParametersValue(params), RequestKey := RequestValue(request)])
  {
    BuildModelSucceedsIffNoReservedKey(params, request, []);
    assert !HasKey([], ParametersKey) && !HasKey([], RequestKey);
    BuiltModelContents(params, request, []);
    var m := BuildModel(params, request, []).value;
    var expected := map[ParametersKey := ParametersValue(params), RequestKey := RequestValue(request)];
    assert forall k :: k in m <==> k in expected;
    assert forall k :: k in m ==> m[k] == expected[k];
    assert m == expected;
  }
}

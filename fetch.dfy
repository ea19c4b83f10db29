/** The fetch plugin of the package (`packages/boring-table-core/src/plugins/Fetch.ts`). It holds
    the query parameters of a remote data source, turns them into the query that a request
    sends, flags the table as loading while a request is out, and hands the extensions the
    request returns on to the table. The request itself is a parameter: `Fetch` is the part
    before the `await`, `Settle` the part after it. */
module Fetch {
  import opened Wrappers
  import opened Values
  import opened Strings
  import opened Events
  import opened PackageHost

  /** No key occurs twice. */
  predicate DistinctKeys<T>(es: seq<(string, T)>) {
    forall i, j :: 0 <= i < j < |es| ==> es[i].0 != es[j].0
  }

  /** A plain object: its entries in the order `Object.entries` lists them. */
  type Record<T> = es: seq<(string, T)> | DistinctKeys(es) witness []

  function KeySet<T>(es: seq<(string, T)>): set<string> {
    set i | 0 <= i < |es| :: es[i].0
  }

  lemma KeySetSnoc<T>(es: seq<(string, T)>, e: (string, T))
    ensures KeySet(es + [e]) == KeySet(es) + {e.0}
  {
    var s := es + [e];
    assert forall i | 0 <= i < |es| :: s[i] == es[i];
    assert s[|es|] == e;
  }

  /** The object as a dictionary: the last entry of a key decides its value. */
  function AsMap<T>(es: seq<(string, T)>): (m: map<string, T>)
    ensures m.Keys == KeySet(es)
  {
    if es == [] then map[]
    else
      var init := es[..|es| - 1];
      KeySetSnoc(init, es[|es| - 1]);
      assert init + [es[|es| - 1]] == es;
      AsMap(init)[es[|es| - 1].0 := es[|es| - 1].1]
  }

  /** Each entry of an object is what the object holds under its key. */
  lemma {:induction false} AsMapAt<T>(es: Record<T>, i: nat)
    requires i < |es|
    ensures AsMap(es)[es[i].0] == es[i].1
    decreases |es|
  {
    var init := es[..|es| - 1];
    if i < |es| - 1 {
      assert init[i] == es[i];
      AsMapAt(init, i);
    }
  }

  /** Where the entry of `key` is. */
  function IndexOf<T>(es: seq<(string, T)>, key: string): (r: nat)
    requires key in KeySet(es)
    ensures r < |es| && es[r].0 == key
  {
    if es[0].0 == key then 0
    else
      assert key in KeySet(es[1..]) by {
        var i :| 0 <= i < |es| && es[i].0 == key;
        assert es[1..][i - 1] == es[i];
      }
      1 + IndexOf(es[1..], key)
  }

  /** Adding an entry at the end writes its key of the dictionary. */
  lemma AsMapSnoc<T>(es: seq<(string, T)>, e: (string, T))
    ensures AsMap(es + [e]) == AsMap(es)[e.0 := e.1]
  {
    assert (es + [e])[..|es|] == es;
  }

  /** Overwriting the value of an entry in place keeps the keys and their order. */
  lemma UpdateKeepsKeys<T>(es: Record<T>, i: nat, x: T)
    requires i < |es|
    ensures DistinctKeys(es[i := (es[i].0, x)])
  {
    var es' := es[i := (es[i].0, x)];
    assert forall j | 0 <= j < |es| :: es'[j].0 == es[j].0;
  }

  /** Overwriting the value of an entry in place writes that key of the dictionary. */
  lemma {:induction false} UpdateAt<T>(es: seq<(string, T)>, i: nat, x: T)
    requires i < |es|
    requires forall j :: i < j < |es| ==> es[j].0 != es[i].0
    ensures AsMap(es[i := (es[i].0, x)]) == AsMap(es)[es[i].0 := x]
    decreases |es|
  {
    var k := es[i].0;
    var n := |es| - 1;
    var e := es[n];
    var init := es[..n];
    var es' := es[i := (k, x)];
    var m := AsMap(init);
    assert AsMap(es) == m[e.0 := e.1] by {
      assert es == init + [e];
      AsMapSnoc(init, e);
    }
    if i == n {
      assert AsMap(es') == m[k := x] by {
        assert es' == init + [(k, x)];
        AsMapSnoc(init, (k, x));
      }
    } else {
      var init' := init[i := (k, x)];
      assert AsMap(init') == m[k := x] by {
        UpdateAt(init, i, x);
      }
      assert AsMap(es') == AsMap(init')[e.0 := e.1] by {
        assert es' == init' + [e];
        AsMapSnoc(init', e);
      }
      assert m[k := x][e.0 := e.1] == m[e.0 := e.1][k := x];
    }
  }

  /** What `String(value) === ''` and the rest of the test look at: what a query value may be. */
  predicate IsParamValue(v: Value) {
    v.Undefined? || v.Null? || v.Num? || v.NaN? || v.Infinity? || v.Str?
  }

  /** `string | number | null | undefined`. */
  type ParamValue = v: Value | IsParamValue(v) witness Undefined

  /** `{ value, requestOnChange }`. */
  datatype Param = Param(value: ParamValue, requestOnChange: bool)

  /** `String(value)`. */
  function JsString(v: ParamValue): string {
    if v.Str? then v.s
    else if v.Num? then IntToString(v.n)
    else if v.NaN? then "NaN"
    else if v.Infinity? then "Infinity"
    else if v.Null? then "null"
    else "undefined"
  }

  /** `value === null || value === undefined || String(value) === ''`. */
  predicate Dropped(v: ParamValue) {
    v.Null? || v.Undefined? || JsString(v) == ""
  }

  /** Exactly `null`, `undefined` and the empty string are left out of a query; every number is kept. */
  lemma DroppedExactly(v: ParamValue)
    ensures Dropped(v) <==> v == Null || v == Undefined || v == Str("")
  {
  }

  /** `getQueryParams()`: the value of every parameter, under its key and in its order. */
  function ValuesOf(params: Record<Param>): (r: Record<ParamValue>)
    ensures |r| == |params|
    ensures forall i :: 0 <= i < |r| ==> r[i] == (params[i].0, params[i].1.value)
    decreases |params|
  {
    if params == [] then []
    else
      var n := |params| - 1;
      ValuesOf(params[..n]) + [(params[n].0, params[n].1.value)]
  }

  /** As dictionaries, `getQueryParams()` reads the value field of every parameter. */
  lemma {:induction false} ValuesOfAsMap(params: Record<Param>)
    ensures AsMap(ValuesOf(params)).Keys == AsMap(params).Keys
    ensures forall k :: k in AsMap(params) ==> AsMap(ValuesOf(params))[k] == AsMap(params)[k].value
  {
    var r := ValuesOf(params);
    assert KeySet(r) == KeySet(params) by {
      forall k | k in KeySet(params) ensures k in KeySet(r) {
        var i :| 0 <= i < |params| && params[i].0 == k;
        assert r[i].0 == k;
      }
    }
    forall k | k in AsMap(params) ensures AsMap(r)[k] == AsMap(params)[k].value {
      var i :| 0 <= i < |params| && params[i].0 == k;
      AsMapAt(params, i);
      AsMapAt(r, i);
    }
  }

  /** The reduce of `normalizeQueryParams()` before `URLSearchParams`: the entries not left out,
      in order, each as `String(value)`. */
  function Normalize(vals: Record<ParamValue>): (r: Record<string>)
    ensures KeySet(r) <= KeySet(vals)
    ensures forall i :: 0 <= i < |r| ==> r[i].1 != ""
    decreases |vals|
  {
    if vals == [] then []
    else
      var n := |vals| - 1;
      var init: Record<ParamValue> := vals[..n];
      var rest := Normalize(init);
      KeySetSnoc(init, vals[n]);
      assert init + [vals[n]] == vals;
      if Dropped(vals[n].1) then rest
      else
        assert vals[n].0 !in KeySet(init);
        KeySetSnoc(rest, (vals[n].0, JsString(vals[n].1)));
        rest + [(vals[n].0, JsString(vals[n].1))]
  }

  /** The dictionary a query sends: every key whose value is not left out, with that value as a string. */
  function QueryMap(m: map<string, ParamValue>): map<string, string> {
    map k | k in m && !Dropped(m[k]) :: JsString(m[k])
  }

  /** Adding a key the dictionary does not hold adds it to the query unless its value is left out. */
  lemma QueryMapAdd(m: map<string, ParamValue>, k: string, v: ParamValue)
    requires k !in m
    ensures QueryMap(m[k := v]) == if Dropped(v) then QueryMap(m) else QueryMap(m)[k := JsString(v)]
  {
  }

  /** The query holds exactly the keys whose values are not `null`, `undefined` or `''`, each with
      its value as a string. */
  lemma {:induction false} NormalizeIsQuery(vals: Record<ParamValue>)
    ensures AsMap(Normalize(vals)) == QueryMap(AsMap(vals))
    decreases |vals|
  {
    if vals != [] {
      var n := |vals| - 1;
      var init: Record<ParamValue> := vals[..n];
      var (k, v) := vals[n];
      NormalizeIsQuery(init);
      KeySetSnoc(init, vals[n]);
      assert init + [vals[n]] == vals;
      AsMapSnoc(init, vals[n]);
      assert k !in AsMap(init);
      QueryMapAdd(AsMap(init), k, v);
      if !Dropped(v) {
        AsMapSnoc(Normalize(init), (k, JsString(v)));
      }
    }
  }

  /** Strings as query values. */
  function AsValues(es: Record<string>): (r: Record<ParamValue>)
    ensures |r| == |es|
    ensures forall i :: 0 <= i < |r| ==> r[i] == (es[i].0, Str(es[i].1))
    decreases |es|
  {
    if es == [] then []
    else
      var n := |es| - 1;
      AsValues(es[..n]) + [(es[n].0, Str(es[n].1))]
  }

  /** Non-empty strings pass through `normalizeQueryParams()` unchanged. */
  lemma {:induction false} NormalizeKeepsStrings(es: Record<string>)
    requires forall i :: 0 <= i < |es| ==> es[i].1 != ""
    ensures Normalize(AsValues(es)) == es
    decreases |es|
  {
    if es != [] {
      var n := |es| - 1;
      var vals := AsValues(es);
      assert vals[..n] == AsValues(es[..n]);
      NormalizeKeepsStrings(es[..n]);
      assert es[..n] + [es[n]] == es;
    }
  }

  /** Normalizing a query again changes nothing. */
  lemma NormalizeIdempotent(vals: Record<ParamValue>)
    ensures Normalize(AsValues(Normalize(vals))) == Normalize(vals)
  {
    NormalizeKeepsStrings(Normalize(vals));
  }

  /** `params[key].value = v`, written into the object in place. */
  function WithValue(params: Record<Param>, key: string, v: ParamValue): (r: Record<Param>)
    requires key in KeySet(params)
  {
    var i := IndexOf(params, key);
    UpdateKeepsKeys(params, i, params[i].1.(value := v));
    params[i := (key, params[i].1.(value := v))]
  }

  /** Writing a parameter's value keeps every key in its place and its `requestOnChange`, and
      changes the value of that key only. */
  lemma WithValueIs(params: Record<Param>, key: string, v: ParamValue)
    requires key in KeySet(params)
    ensures var r := WithValue(params, key, v);
            |r| == |params| && (forall i :: 0 <= i < |r| ==> r[i].0 == params[i].0) &&
            AsMap(r) == AsMap(params)[key := AsMap(params)[key].(value := v)]
  {
    var i := IndexOf(params, key);
    AsMapAt(params, i);
    assert forall j :: i < j < |params| ==> params[j].0 != key;
    UpdateAt(params, i, params[i].1.(value := v));
  }

  /** The answer of `fetchFn`: its `data`, and its `extensions` when it has that key. */
  datatype FetchResult = FetchResult(data: Value, extensions: Option<Bag>)

  /** The keys `extend()` contributes before the fetched extensions. */
  const FetchKeys: set<string> := {"queryParams", "loading", "fetch", "setQueryParams", "setQueryParam"}

  class FetchPlugin {
    var table: Table?
    var queryParams: Record<Param>
    const fetchOnMount: bool
    var loading: bool
    var extensions: Bag

    /** `fetchOnMount` defaults to `true`; `initialValues` are the extensions until a request returns. */
    constructor (params: Record<Param>, optFetchOnMount: Option<bool>, initialValues: Option<Bag>)
      ensures table == null && queryParams == params && fetchOnMount == optFetchOnMount.GetOr(true)
      ensures !loading && extensions == initialValues.GetOr(map[])
    {
      table := null;
      queryParams := params;
      fetchOnMount := optFetchOnMount.GetOr(true);
      loading := false;
      extensions := initialValues.GetOr(map[]);
    }

    /** `configure(table)`: keeps the table and contributes nothing. */
    method Configure(t: Table) returns (r: Bag)
      modifies this`table
      ensures table == t && r == map[]
    {
      table := t;
      r := map[];
    }

    /** `setQueryParams(params)`: replaces the parameters and announces nothing. */
    method SetQueryParams(params: Record<Param>)
      modifies this`queryParams
      ensures queryParams == params
    {
      queryParams := params;
    }

    /** `fetch()` up to its `await`: the query is built from the current values, the plugin is
        loading, and the table, when there is one, is asked to refresh its extensions. */
    method Fetch() returns (query: Record<string>)
      modifies this`loading, if table != null then {table.log} else {}
      ensures query == Normalize(ValuesOf(queryParams)) && loading
      ensures table != null ==> table.log.entries == old(table.log.entries) + [(UpdateExtensions, Undefined)]
    {
      query := Normalize(ValuesOf(queryParams));
      loading := true;
      if table != null {
        table.Dispatch(UpdateExtensions, Undefined);
      }
    }

    /** `fetch()` after its `await`: no longer loading, and the returned extensions, when there
        are any, replace the plugin's. */
    method Settle(result: FetchResult)
      modifies this`loading, this`extensions
      ensures !loading
      ensures extensions == if result.extensions.Some? then result.extensions.value else old(extensions)
    {
      loading := false;
      if result.extensions.Some? {
        extensions := result.extensions.value;
      }
    }

    /** `onMount()`: a request goes out exactly when `fetchOnMount` is set. */
    method OnMount() returns (query: Option<Record<string>>)
      modifies this`loading, if table != null then {table.log} else {}
      ensures query.Some? <==> fetchOnMount
      ensures query.Some? ==> query.value == Normalize(ValuesOf(queryParams)) && loading
      ensures query.None? ==> loading == old(loading)
      ensures table != null ==>
                table.log.entries == old(table.log.entries) + (if fetchOnMount then [(UpdateExtensions, Undefined)] else [])
    {
      query := None;
      if fetchOnMount {
        var q := Fetch();
        query := Some(q);
      }
    }

    /** `setQueryParam(key, value)`: the parameter's value becomes the given value, or the given
        function of its current value, in place; the table is asked to refresh its extensions,
        and a request goes out exactly when the parameter asks for one on change. */
    method SetQueryParam(key: string, u: Updater) returns (query: Option<Record<string>>)
      requires key in KeySet(queryParams)
      requires IsParamValue(Unwrap(u, AsMap(queryParams)[key].value))
      modifies this`queryParams, this`loading, if table != null then {table.log} else {}
      ensures queryParams == WithValue(old(queryParams), key, Unwrap(u, old(AsMap(queryParams))[key].value))
      ensures query.Some? <==> old(AsMap(queryParams))[key].requestOnChange
      ensures query.Some? ==> query.value == Normalize(ValuesOf(queryParams)) && loading
      ensures query.None? ==> loading == old(loading)
      ensures table != null ==>
                table.log.entries == old(table.log.entries) + [(UpdateExtensions, Undefined)] +
                                     (if query.Some? then [(UpdateExtensions, Undefined)] else [])
    {
      var i := IndexOf(queryParams, key);
      AsMapAt(queryParams, i);
      var p := queryParams[i].1;
      queryParams := WithValue(queryParams, key, Unwrap(u, p.value));
      if table != null {
        table.Dispatch(UpdateExtensions, Undefined);
      }
      query := None;
      if p.requestOnChange {
        var q := Fetch();
        query := Some(q);
      }
    }

    /** `extend()`: the current values, the loading flag and the setters, with the fetched
        extensions spread last, so that they win on a shared key. */
    function Extension(): (r: Bag)
      reads this
      ensures r.Keys == FetchKeys + extensions.Keys
      ensures forall k :: k in extensions ==> r[k] == extensions[k]
      ensures "loading" !in extensions ==> r["loading"] == Bool(loading)
      ensures "queryParams" !in extensions ==>
                r["queryParams"].Obj? && r["queryParams"].fields.Keys == KeySet(queryParams) &&
                forall k :: k in KeySet(queryParams) ==> r["queryParams"].fields[k] == AsMap(queryParams)[k].value
    {
      ValuesOfAsMap(queryParams);
      map["queryParams" := Obj(AsMap(ValuesOf(queryParams))), "loading" := Bool(loading),
          "fetch" := Opaque(0), "setQueryParams" := Opaque(1), "setQueryParam" := Opaque(2)] + extensions
    }

    /** `onUpdateExtensions(extensions)`: `Object.assign` writes the plugin's keys over the
        table's extensions and keeps every other key. */
    function AssignedExtensions(ext: Bag): (r: Bag)
      reads this
      ensures r.Keys == ext.Keys + FetchKeys + extensions.Keys
      ensures forall k :: k in ext && k !in FetchKeys && k !in extensions ==> r[k] == ext[k]
      ensures forall k :: k in extensions ==> r[k] == extensions[k]
    {
      ext + Extension()
    }
  }
}

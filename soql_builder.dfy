/** The SoQL builder: from parsed query parameters to the dataset identifier and the
    `$where`, `$select` and `$limit` parameters of a Socrata request
    (backend/app/core/soql_builder.py). */
module SoqlBuilder {
  import opened Values
  import opened QueryParser
  import opened EntityResolver

  // ---------------------------------------------------------------- string literals

  /** `s.replace("'", "''")`. */
  function Escape(s: string): (r: string)
    ensures Paired(r)
  {
    if s == [] then []
    else
      var rest := Escape(s[1..]);
      if s[0] == '\'' then
        var r := "''" + rest;
        assert r[2..] == rest;
        r
      else
        var r := [s[0]] + rest;
        assert r[1..] == rest;
        r
  }

  /** Every quote of `s` is one of a doubled pair, so inside a SoQL literal `'...'` none of
      them ends the literal. */
  predicate Paired(s: string)
    decreases |s|
  {
    if s == [] then true
    else if s[0] != '\'' then Paired(s[1..])
    else |s| >= 2 && s[1] == '\'' && Paired(s[2..])
  }

  /** How SoQL reads the text of a literal back: a doubled quote is one quote. */
  function Unescape(s: string): string
    decreases |s|
  {
    if s == [] then []
    else if |s| >= 2 && s[0] == '\'' && s[1] == '\'' then "'" + Unescape(s[2..])
    else [s[0]] + Unescape(s[1..])
  }

  /** Reading back an escaped string gives the string. */
  lemma {:induction false} UnescapeEscape(s: string)
    ensures Unescape(Escape(s)) == s
    decreases |s|
  {
    if s != [] {
      var e := Escape(s);
      UnescapeEscape(s[1..]);
      if s[0] == '\'' {
        assert e[2..] == Escape(s[1..]);
      } else {
        assert e[1..] == Escape(s[1..]);
      }
    }
  }

  /** A string without quotes is its own escape. */
  lemma {:induction false} EscapeWithoutQuotes(s: string)
    requires forall k :: 0 <= k < |s| ==> s[k] != '\''
    ensures Escape(s) == s
    decreases |s|
  {
    if s != [] {
      EscapeWithoutQuotes(s[1..]);
    }
  }

  // ---------------------------------------------------------------- filters

  /** `isinstance(value, (int, float))`; a bool is an int in Python. */
  predicate Numeric(v: Value) {
    v.Bool? || v.Int? || v.Float?
  }

  /** What iterating over a value yields: a list's items, a dict's keys. */
  function Elements(v: Value): seq<Value>
    requires v.List? || v.Object?
  {
    if v.List? then v.items else seq(|v.entries|, k requires 0 <= k < |v.entries| => Str(v.entries[k].0))
  }

  /** `_quote`: a number as its text, anything else as a quoted, escaped literal. */
  function Quote(rt: Runtime, v: Value): (r: string)
    ensures Numeric(v) ==> r == Text(rt, v)
    ensures !Numeric(v) ==> |r| >= 2 && r[0] == '\'' && r[|r| - 1] == '\'' &&
                            Paired(r[1..|r| - 1]) && Unescape(r[1..|r| - 1]) == Text(rt, v)
  {
    if Numeric(v) then Text(rt, v)
    else
      var escaped := Escape(Text(rt, v));
      UnescapeEscape(Text(rt, v));
      var r := "'" + escaped + "'";
      assert r[1..|r| - 1] == escaped;
      r
  }

  /** The clause for a string filter: a case-insensitive LIKE whose literal reads back as
      the value, with none of its quotes ending the literal early. */
  function Like(key: string, s: string): (r: string)
    ensures |r| >= |key| + 24
    ensures r == "upper(" + key + ") LIKE upper('%" + r[|key| + 21..|r| - 3] + "%')"
    ensures Paired(r[|key| + 21..|r| - 3]) && Unescape(r[|key| + 21..|r| - 3]) == s
  {
    var escaped := Escape(s);
    UnescapeEscape(s);
    var r := "upper(" + key + ") LIKE upper('%" + escaped + "%')";
    assert r[|key| + 21..|r| - 3] == escaped;
    r
  }

  /** `_render_filter`: one clause of the `$where`. */
  function RenderFilter(rt: Runtime, key: string, value: Value): (r: string)
    ensures r != []
    ensures Numeric(value) ==> r == key + " = " + Text(rt, value)
    ensures value.Str? ==> r == Like(key, value.s)
    ensures value.List? || value.Object? ==>
              r == key + " IN (" + Join(", ", Quoted(rt, Elements(value))) + ")"
    ensures value.Null? ==> r == key + " = null"
  {
    match value
    case Bool(_) => key + " = " + Text(rt, value)
    case Int(_) => key + " = " + Text(rt, value)
    case Float(_) => key + " = " + Text(rt, value)
    case Str(s) => Like(key, s)
    case Null => key + " = null"  // json.dumps(None)
    case _ => key + " IN (" + Join(", ", Quoted(rt, Elements(value))) + ")"
  }

  /** `_quote` applied to each element. */
  function Quoted(rt: Runtime, items: seq<Value>): seq<string> {
    seq(|items|, k requires 0 <= k < |items| => Quote(rt, items[k]))
  }

  /** The clauses rendered for the filters, in the filters' order. */
  function Clauses(rt: Runtime, filters: Entries): seq<string> {
    seq(|filters|, k requires 0 <= k < |filters| => RenderFilter(rt, filters[k].0, filters[k].1))
  }

  /** `filter(None, parts)`: the non-empty parts, in order. */
  function NonEmpty(parts: seq<string>): (r: seq<string>)
    ensures forall k :: 0 <= k < |r| ==> r[k] != []
    ensures (forall k :: 0 <= k < |parts| ==> parts[k] != []) ==> r == parts
  {
    if parts == [] then []
    else if parts[0] == [] then NonEmpty(parts[1..])
    else [parts[0]] + NonEmpty(parts[1..])
  }

  /** Every non-empty part is kept, as often as it occurs, and no empty one is. */
  lemma {:induction false} NonEmptyKeepsParts(parts: seq<string>)
    ensures forall x :: multiset(NonEmpty(parts))[x] == if x == [] then 0 else multiset(parts)[x]
  {
    if parts != [] {
      NonEmptyKeepsParts(parts[1..]);
      assert parts == [parts[0]] + parts[1..];
    }
  }

  /** Filtering two lists and joining the results is filtering the joined lists: the kept
      parts keep their order. */
  lemma {:induction false} NonEmptyAppend(a: seq<string>, b: seq<string>)
    ensures NonEmpty(a + b) == NonEmpty(a) + NonEmpty(b)
    decreases |a|
  {
    if a == [] {
      assert a + b == b;
    } else {
      var ab := a + b;
      var head := if a[0] == [] then [] else [a[0]];
      assert ab[0] == a[0] && ab[1..] == a[1..] + b;
      NonEmptyAppend(a[1..], b);
      calc {
        NonEmpty(ab);
        head + NonEmpty(a[1..] + b);
        head + (NonEmpty(a[1..]) + NonEmpty(b));
        (head + NonEmpty(a[1..])) + NonEmpty(b);
      }
    }
  }

  /** What `_build_where` returns. */
  function Where(rt: Runtime, filters: Entries): string {
    Join(" AND ", NonEmpty(Clauses(rt, filters)))
  }

  /** Every filter renders to a clause, so the `$where` text is empty exactly when there
      are no filters, and it is the clauses in the filters' order joined by " AND ". */
  lemma WhereEmptyIff(rt: Runtime, filters: Entries)
    ensures Where(rt, filters) == Join(" AND ", Clauses(rt, filters))
    ensures Where(rt, filters) == "" <==> filters == []
  {
    var clauses := Clauses(rt, filters);
    assert forall k :: 0 <= k < |clauses| ==> clauses[k] != [];
    JoinNonEmpty(" AND ", clauses);
  }

  /** `_build_where`: the clauses collected in a loop, then joined. */
  method BuildWhere(rt: Runtime, filters: Entries) returns (w: string)
    ensures w == Where(rt, filters)
  {
    var clauses: seq<string> := [];
    for i := 0 to |filters|
      invariant |clauses| == i
      invariant forall k :: 0 <= k < i ==> clauses[k] == RenderFilter(rt, filters[k].0, filters[k].1)
    {
      var (key, value) := filters[i];
      clauses := clauses + [RenderFilter(rt, key, value)];
    }
    assert clauses == Clauses(rt, filters);
    w := Join(" AND ", NonEmpty(clauses));
  }

  // ---------------------------------------------------------------- the payload

  /** `", ".join(metrics)` succeeds only when every metric is a string. */
  predicate AllStr(metrics: seq<Value>) {
    forall k :: 0 <= k < |metrics| ==> metrics[k].Str?
  }

  function Strs(metrics: seq<Value>): seq<string>
    requires AllStr(metrics)
  {
    seq(|metrics|, k requires 0 <= k < |metrics| => metrics[k].s)
  }

  /** The `$select` text, when there are metrics. */
  function Select(metrics: seq<Value>): Option<string>
    requires AllStr(metrics)
  {
    if metrics == [] then None else Some(Join(", ", Strs(metrics)))
  }

  function TextFound(t: Option<string>): Option<Value> {
    if t.Some? then Some(Str(t.value)) else None
  }

  function LimitFound(limit: Option<int>): Option<Value> {
    if limit.Some? then Some(Int(limit.value)) else None
  }

  /** The SoQL parameters, set in the order `build` sets them. */
  function SoqlParams(where: string, select: Option<string>, limit: Option<int>): Entries {
    var w := PutFound([], "$where", if where != "" then Some(Str(where)) else None);
    PutFound(PutFound(w, "$select", TextFound(select)), "$limit", LimitFound(limit))
  }

  /** Each parameter is present exactly when it has a value, and holds that value; with
      none of them the parameters are `{}`. */
  lemma SoqlParamsKeys(where: string, select: Option<string>, limit: Option<int>)
    ensures var d := SoqlParams(where, select, limit);
            && DistinctKeys(d)
            && Lookup(d, "$where") == (if where != "" then Some(Str(where)) else None)
            && Lookup(d, "$select") == TextFound(select)
            && Lookup(d, "$limit") == LimitFound(limit)
            && (d == [] <==> where == "" && select.None? && limit.None?)
  {
    var w := PutFound([], "$where", if where != "" then Some(Str(where)) else None);
    var s := PutFound(w, "$select", TextFound(select));
    var d := PutFound(s, "$limit", LimitFound(limit));
    PutFoundFresh([], "$where", if where != "" then Some(Str(where)) else None, {});
    assert "$select"[1] != "$where"[1] && "$limit"[1] != "$where"[1] && "$limit"[1] != "$select"[1];
    PutFoundFresh(w, "$select", TextFound(select), {"$where"});
    PutFoundFresh(s, "$limit", LimitFound(limit), {"$where", "$select"});
    if d == [] {
      assert Lookup(d, "$where").None? && Lookup(d, "$select").None? && Lookup(d, "$limit").None?;
    }
  }

  /** A SoQL builder with its dataset map (`dataset_map or {}`). */
  datatype Builder = Builder(datasetMap: map<string, string>) {

    /** `_resolve_dataset`: a truthy `dataset_id` in the resolved entity's metadata wins,
        then the dataset map entry for the parsed entity, then the entity itself. */
    function ResolveDataset(params: QueryParams, entity: Option<ResolvedEntity>): (r: Value)
      ensures entity.Some? && Lookup(entity.value.metadata, "dataset_id").Some? &&
              Truthy(Lookup(entity.value.metadata, "dataset_id").value) ==>
                r == Lookup(entity.value.metadata, "dataset_id").value
      ensures !(entity.Some? && Lookup(entity.value.metadata, "dataset_id").Some? &&
                Truthy(Lookup(entity.value.metadata, "dataset_id").value)) ==>
                r == Str(if params.entity in datasetMap then datasetMap[params.entity] else params.entity)
    {
      var id := if entity.Some? then Lookup(entity.value.metadata, "dataset_id") else None;
      if id.Some? && Truthy(id.value) then id.value
      else if params.entity in datasetMap then Str(datasetMap[params.entity])
      else Str(params.entity)
    }

    /** What `build` returns: `{"dataset": ..., "params": ...}`, or the TypeError of joining
        metrics that are not all strings. */
    function Payload(rt: Runtime, params: QueryParams, entity: Option<ResolvedEntity>): Result<Value> {
      if !AllStr(params.metrics) then Err(TypeError)
      else
        var soql := SoqlParams(Where(rt, params.filters), Select(params.metrics), params.limit);
        Ok(Object([("dataset", ResolveDataset(params, entity)), ("params", Object(soql))]))
    }

    /** `build`: the parameters filled key by key. */
    method Build(rt: Runtime, params: QueryParams, entity: Option<ResolvedEntity>) returns (r: Result<Value>)
      ensures r == Payload(rt, params, entity)
    {
      var dataset := ResolveDataset(params, entity);
      var soql: Entries := [];
      var where := BuildWhere(rt, params.filters);
      if where != "" {
        soql := Put(soql, "$where", Str(where));
      }
      ghost var w := soql;
      if params.metrics != [] {
        if !AllStr(params.metrics) {
          return Err(TypeError);
        }
        soql := Put(soql, "$select", Str(Join(", ", Strs(params.metrics))));
      }
      ghost var s := soql;
      if params.limit.Some? {
        soql := Put(soql, "$limit", Int(params.limit.value));
      }
      assert soql == PutFound(s, "$limit", LimitFound(params.limit));
      assert s == PutFound(w, "$select", TextFound(Select(params.metrics)));
      r := Ok(Object([("dataset", dataset), ("params", Object(soql))]));
    }
  }

  /** The parameters of a built payload: `$where` exactly when there are filters, holding
      their clauses joined by " AND "; `$select` exactly when there are metrics, holding
      them joined by ", "; `$limit` exactly when there is a limit, holding it unchanged;
      `{}` when there is none of these. Building fails exactly when a metric is not a
      string. */
  lemma PayloadParams(b: Builder, rt: Runtime, params: QueryParams, entity: Option<ResolvedEntity>)
    ensures b.Payload(rt, params, entity).Err? <==> !AllStr(params.metrics)
    ensures b.Payload(rt, params, entity).Ok? ==>
              var payload := b.Payload(rt, params, entity).value;
              && payload.Object? && |payload.entries| == 2
              && payload.entries[0] == ("dataset", b.ResolveDataset(params, entity))
              && payload.entries[1].0 == "params" && payload.entries[1].1.Object?
              && var d := payload.entries[1].1.entries;
                 && DistinctKeys(d)
                 && (HasKey(d, "$where") <==> params.filters != [])
                 && (params.filters != [] ==> Lookup(d, "$where") == Some(Str(Join(" AND ", Clauses(rt, params.filters)))))
                 && (HasKey(d, "$select") <==> params.metrics != [])
                 && (params.metrics != [] ==> Lookup(d, "$select") == Some(Str(Join(", ", Strs(params.metrics)))))
                 && Lookup(d, "$limit") == LimitFound(params.limit)
                 && (d == [] <==> params.filters == [] && params.metrics == [] && params.limit.None?)
  {
    if AllStr(params.metrics) {
      WhereEmptyIff(rt, params.filters);
      SoqlParamsKeys(Where(rt, params.filters), Select(params.metrics), params.limit);
    }
  }

  /** A value without quotes appears in its LIKE clause as it is. */
  lemma LikeWithoutQuotes(key: string, s: string)
    requires forall k :: 0 <= k < |s| ==> s[k] != '\''
    ensures Like(key, s) == "upper(" + key + ") LIKE upper('%" + s + "%')"
  {
    EscapeWithoutQuotes(s);
  }

  /** One string filter without quotes, one metric and a limit, with no resolved entity
      and no dataset map: the entity names the dataset, the metric is the `$select`, the
      limit is kept and the value appears in the LIKE pattern as it is. */
  lemma BuildIncludesLimitAndFilters(rt: Runtime, key: string, s: string, metric: string, n: int)
    requires forall k :: 0 <= k < |s| ==> s[k] != '\''
    requires n > 0
    ensures var params := QueryParams("contracts", [(key, Str(s))], [Str(metric)], "", Some(n));
            var payload := Builder(map[]).Payload(rt, params, None);
            && payload.Ok? && payload.value.entries[0] == ("dataset", Str("contracts"))
            && var d := payload.value.entries[1].1.entries;
               && Lookup(d, "$select") == Some(Str(metric))
               && Lookup(d, "$limit") == Some(Int(n))
               && Lookup(d, "$where") == Some(Str("upper(" + key + ") LIKE upper('%" + s + "%')"))
  {
    var params := QueryParams("contracts", [(key, Str(s))], [Str(metric)], "", Some(n));
    LikeWithoutQuotes(key, s);
    assert Clauses(rt, params.filters) == [Like(key, s)];
    assert Strs(params.metrics) == [metric];
    PayloadParams(Builder(map[]), rt, params, None);
  }

  /** A `dataset_id` in the resolved entity's metadata wins over the dataset map, and with
      no filters, metrics or limit the parameters are empty. */
  lemma ResolvedEntityMetadataPrecedence(rt: Runtime)
    ensures var params := QueryParams("contracts", [], [], "", None);
            var resolved := ResolvedEntity("Contracts", 0.9, [("dataset_id", Str("secop-123"))]);
            Builder(map["contracts" := "default-dataset"]).Payload(rt, params, Some(resolved))
              == Ok(Object([("dataset", Str("secop-123")), ("params", Object([]))]))
  {
    var params := QueryParams("contracts", [], [], "", None);
    PayloadParams(Builder(map["contracts" := "default-dataset"]), rt, params, None);
  }
}

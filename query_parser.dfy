/** Intent parsing: the query-parameter record, the coercion of a language model's
    answer, the keyword heuristic and the parser that falls back from one to the other
    (backend/app/core/query_parser.py). */
module QueryParser {
  import opened Values
  import opened Scan

  /** The parsed intent. */
  datatype QueryParams = QueryParams(
    entity: string,
    filters: Entries,
    metrics: seq<Value>,
    rawQuery: string,
    limit: Option<int>)
  {
    /** The construction invariant. */
    predicate Valid() {
      !IsBlank(entity) && (limit.Some? ==> limit.value > 0)
    }
  }

  /** `QueryParams(entity=..., ...)`: construction runs the validation of `__post_init__`.
      `entity` is whatever the caller passes, so a non-string entity is possible. */
  function NewQueryParams(entity: Value, filters: Entries, metrics: seq<Value>, rawQuery: string, limit: Option<int>)
    : (r: Result<QueryParams>)
    ensures r.Ok? <==> entity.Str? && !IsBlank(entity.s) && (limit.None? || limit.value > 0)
    ensures r.Ok? ==> r.value.Valid() && r.value == QueryParams(entity.s, filters, metrics, rawQuery, limit)
    ensures r.Err? && (!Truthy(entity) || entity.Str?) ==> r.error == ValueError
    ensures r.Err? && Truthy(entity) && !entity.Str? ==> r.error == AttributeError
  {
    if !Truthy(entity) then Err(ValueError)
    else if !entity.Str? then Err(AttributeError)  // `.strip()` on a value that is not a string
    else if IsBlank(entity.s) then Err(ValueError)
    else if limit.Some? && limit.value <= 0 then Err(ValueError)
    else Ok(QueryParams(entity.s, filters, metrics, rawQuery, limit))
  }

  function LimitValue(limit: Option<int>): Value {
    match limit
    case None => Null
    case Some(n) => Int(n)
  }

  const Fields: seq<string> := ["entity", "filters", "metrics", "raw_query", "limit"]

  /** Every key names a field: `QueryParams(**d)` takes no other keyword. */
  predicate OnlyFields(d: Entries) {
    forall k :: 0 <= k < |d| ==> d[k].0 in Fields
  }

  /** `as_dict()`: the five fields under their own names, in declaration order. */
  function AsDict(p: QueryParams): (d: Value)
    ensures d.Object? && Keys(d.entries) == Fields
    ensures Lookup(d.entries, "entity") == Some(Str(p.entity))
    ensures Lookup(d.entries, "filters") == Some(Object(p.filters))
    ensures Lookup(d.entries, "metrics") == Some(List(p.metrics))
    ensures Lookup(d.entries, "raw_query") == Some(Str(p.rawQuery))
    ensures Lookup(d.entries, "limit") == Some(LimitValue(p.limit))
  {
    var es := [
      ("entity", Str(p.entity)),
      ("filters", Object(p.filters)),
      ("metrics", List(p.metrics)),
      ("raw_query", Str(p.rawQuery)),
      ("limit", LimitValue(p.limit))];
    assert "filters"[0] != "metrics"[0] && "filters"[0] != "raw_query"[0] && "metrics"[0] != "raw_query"[0];
    assert "entity"[0] != "limit"[0];
    assert DistinctKeys(es);
    assert es[1].0 == "filters" && es[2].0 == "metrics" && es[3].0 == "raw_query" && es[4].0 == "limit";
    Object(es)
  }

  /** `QueryParams(**d)`. A key that is not a field, or a missing entity, is Python's
      TypeError. The dataclass itself does not check field types (it would accept a float
      limit); this typed record cannot hold such values, so here they are refused as a
      TypeError too. */
  function FromDict(d: Value): (r: Result<QueryParams>)
    ensures r.Ok? ==> r.value.Valid()
  {
    if !d.Object? then Err(TypeError)
    else if !OnlyFields(d.entries) then Err(TypeError)
    else
      var entity := Lookup(d.entries, "entity");
      var filters := Lookup(d.entries, "filters").GetOr(Object([]));
      var metrics := Lookup(d.entries, "metrics").GetOr(List([]));
      var raw := Lookup(d.entries, "raw_query").GetOr(Str(""));
      var limit := Lookup(d.entries, "limit").GetOr(Null);
      if entity.None? then Err(TypeError)
      else if !filters.Object? || !metrics.List? || !raw.Str? || !(limit.Null? || limit.Int?) then Err(TypeError)
      else NewQueryParams(entity.value, filters.entries, metrics.items, raw.s,
                          if limit.Int? then Some(limit.i) else None)
  }

  /** Every key `as_dict()` writes is a field name, so `QueryParams(**d)` accepts them all. */
  lemma AsDictKeysAreFields(p: QueryParams)
    ensures OnlyFields(AsDict(p).entries)
  {
    var d := AsDict(p);
    forall k | 0 <= k < |d.entries|
      ensures d.entries[k].0 in Fields
    {
      assert Keys(d.entries)[k] == Fields[k];
    }
  }

  /** A dict whose keys are all field names and that holds a valid record's five fields
      rebuilds that record. */
  lemma FromDictOfFields(d: Value, p: QueryParams)
    requires p.Valid() && d.Object?
    requires OnlyFields(d.entries)
    requires Lookup(d.entries, "entity") == Some(Str(p.entity))
    requires Lookup(d.entries, "filters") == Some(Object(p.filters))
    requires Lookup(d.entries, "metrics") == Some(List(p.metrics))
    requires Lookup(d.entries, "raw_query") == Some(Str(p.rawQuery))
    requires Lookup(d.entries, "limit") == Some(LimitValue(p.limit))
    ensures FromDict(d) == Ok(p)
  {
  }

  /** Rebuilding a valid record from its `as_dict()` gives the record back. */
  lemma FromDictAsDict(p: QueryParams)
    requires p.Valid()
    ensures FromDict(AsDict(p)) == Ok(p)
  {
    AsDictKeysAreFields(p);
    FromDictOfFields(AsDict(p), p);
  }

  /** Reconstruction is idempotent: whatever `QueryParams(**d)` accepts, its `as_dict()` is
      accepted again and gives the same record. */
  lemma FromDictIdempotent(d: Value)
    requires FromDict(d).Ok?
    ensures FromDict(AsDict(FromDict(d).value)) == FromDict(d)
  {
    FromDictAsDict(FromDict(d).value);
  }

  // ---------------------------------------------------------------- the model's answer

  /** `GeminiResponse`: what either the model or the heuristic proposes. */
  datatype Response = Response(entity: Value, filters: Entries, metrics: seq<Value>, limit: Option<int>)

  /** The limit the model proposed, kept only when it is a positive integer or a string of
      digits that reads as one. A string that `isdigit()` accepts but `int()` does not (it
      holds a superscript digit) raises ValueError. */
  function CoerceLimit(v: Value): (r: Result<Option<int>>)
    ensures r.Err? <==> v.Str? && IsDigitText(v.s) && !IsDigits(v.s)
    ensures r.Err? ==> r.error == ValueError
    ensures r.Ok? && r.value.Some? ==> r.value.value > 0
    ensures v.Int? ==> r == Ok(if v.i > 0 then Some(v.i) else None)
    ensures v.Str? && IsDigits(v.s) ==> r == Ok(if DigitsValue(v.s) > 0 then Some(DigitsValue(v.s)) else None)
    ensures !v.Int? && !(v.Str? && IsDigitText(v.s)) ==> r == Ok(None)
  {
    match v
    case Int(i) => Ok(if i > 0 then Some(i) else None)
    case Str(s) =>
      if !IsDigitText(s) then Ok(None)
      else if !IsDigits(s) then Err(ValueError)  // int() of a superscript digit
      else
        var n := DigitsValue(s);
        Ok(if n > 0 then Some(n) else None)
    case _ => Ok(None)
  }

  /** A limit written out in decimal is read back as itself. */
  lemma CoerceLimitOfText(n: int)
    requires n > 0
    ensures CoerceLimit(Str(IntText(n))) == Ok(Some(n))
  {
    DigitsValueOfNatText(n);
  }

  /** Python's `isinstance(v, Iterable)` for the values a JSON payload holds. */
  predicate Iterable(v: Value) {
    v.Str? || v.List? || v.Object?
  }

  /** `list(v)` of an iterable value: the characters of a string, the items of a list,
      the keys of a dict. */
  function ListOf(v: Value): (r: seq<Value>)
    requires Iterable(v)
    ensures v.List? ==> r == v.items
    ensures v.Str? ==> |r| == |v.s| && forall k :: 0 <= k < |r| ==> r[k] == Str([v.s[k]])
    ensures v.Object? ==> |r| == |v.entries| && forall k :: 0 <= k < |r| ==> r[k] == Str(v.entries[k].0)
  {
    match v
    case List(items) => items
    case Str(s) => seq(|s|, k requires 0 <= k < |s| => Str([s[k]]))
    case Object(es) => seq(|es|, k requires 0 <= k < |es| => Str(es[k].0))
  }

  /** What `_coerce_response` does: return a response, return None, or raise (a decoded
      payload that is not a dict has no `get`). */
  datatype Coerced = Accepted(response: Response) | Rejected | Raised

  /** The decoded payload: a dict is taken as it is, a string is decoded as JSON. */
  function Payload(rt: Runtime, raw: Value): Option<Value> {
    match raw
    case Str(s) => rt.loads(s)
    case Object(_) => Some(raw)
    case _ => None
  }

  /** The payload's value under `key`, None when it is missing. */
  function Field(payload: Value, key: string): Value
    requires payload.Object?
  {
    Lookup(payload.entries, key).GetOr(Null)
  }

  /** `_coerce_response`. */
  function Coerce(rt: Runtime, raw: Value): (r: Coerced)
    ensures raw.Null? ==> r == Rejected
    ensures raw.Str? && rt.loads(raw.s).None? ==> r == Rejected
    ensures !raw.Str? && !raw.Object? ==> r == Rejected
    ensures r == Raised <==> Payload(rt, raw).Some?
                              && (!Payload(rt, raw).value.Object?
                                  || CoerceLimit(Field(Payload(rt, raw).value, "limit")).Err?)
    ensures Payload(rt, raw).Some? && Payload(rt, raw).value.Object? ==>
              var payload := Payload(rt, raw).value;
              var filters := Field(payload, "filters");
              var metrics := Field(payload, "metrics");
              (r == Rejected <==> CoerceLimit(Field(payload, "limit")).Ok?
                                  && ((Truthy(filters) && !filters.Object?) || (Truthy(metrics) && !Iterable(metrics))))
    ensures r.Accepted? ==> r.response.limit.None? || r.response.limit.value > 0
    ensures r.Accepted? ==>
              var payload := Payload(rt, raw).value;
              var filters := Field(payload, "filters");
              var metrics := Field(payload, "metrics");
              && r.response.entity == Field(payload, "entity")
              && r.response.filters == (if Truthy(filters) then filters.entries else [])
              && r.response.metrics == (if Truthy(metrics) then ListOf(metrics) else [])
              && Ok(r.response.limit) == CoerceLimit(Field(payload, "limit"))
  {
    var payload := Payload(rt, raw);
    if payload.None? then Rejected
    else if !payload.value.Object? then Raised
    else
      var entity := Field(payload.value, "entity");
      var filters0 := Field(payload.value, "filters");
      var metrics0 := Field(payload.value, "metrics");
      var filters := if Truthy(filters0) then filters0 else Object([]);
      var metrics := if Truthy(metrics0) then metrics0 else List([]);
      var limit := CoerceLimit(Field(payload.value, "limit"));
      if limit.Err? then Raised
      else if !filters.Object? || !Iterable(metrics) then Rejected
      else Accepted(Response(entity, filters.entries, ListOf(metrics), limit.value))
  }

  // ---------------------------------------------------------------- the keyword heuristic

  /** The entity the keywords point to, suppliers before agencies. */
  function EntityFor(lowered: string): (e: string)
    ensures e == "suppliers" <==> Contains(lowered, "proveedor") || Contains(lowered, "supplier")
    ensures e == "agencies" <==> !Contains(lowered, "proveedor") && !Contains(lowered, "supplier")
                                  && (Contains(lowered, "entidad") || Contains(lowered, "agency"))
    ensures e == "contracts" <==> !Contains(lowered, "proveedor") && !Contains(lowered, "supplier")
                                   && !Contains(lowered, "entidad") && !Contains(lowered, "agency")
  {
    if Contains(lowered, "proveedor") || Contains(lowered, "supplier") then "suppliers"
    else if Contains(lowered, "entidad") || Contains(lowered, "agency") then "agencies"
    else "contracts"
  }

  /** `int(year_match.group(0))`: the number written by the first `19xx`/`20xx` token of
      the lowered text. */
  function YearToken(lowered: string): (y: Option<int>)
    ensures y.Some? <==> Search(Year, lowered, 0).Some?
    ensures y.Some? ==> 1900 <= y.value <= 2099
    ensures y.Some? ==>
              var i := Search(Year, lowered, 0).value.group.start;
              y.value == 1000 * Digit(lowered[i]) + 100 * Digit(lowered[i + 1])
                         + 10 * Digit(lowered[i + 2]) + Digit(lowered[i + 3])
  {
    match Search(Year, lowered, 0)
    case Some(f) =>
      var g := Group(lowered, f.group);
      FourDigits(g);
      Some(DigitsValue(g))
    case None => None
  }

  /** A four-digit year token reads as its thousands, hundreds, tens and units. */
  lemma FourDigits(g: string)
    requires |g| == 4 && ((g[0] == '1' && g[1] == '9') || (g[0] == '2' && g[1] == '0'))
    requires IsDigit(g[2]) && IsDigit(g[3])
    ensures DigitsValue(g) == 1000 * Digit(g[0]) + 100 * Digit(g[1]) + 10 * Digit(g[2]) + Digit(g[3])
    ensures 1900 <= DigitsValue(g) <= 2099
  {
    var a, b, c := g[..1], g[..2], g[..3];
    assert a[..0] == [] && b[..1] == a && c[..2] == b && g[..3] == c;
    assert DigitsValue(a) == Digit(g[0]);
    assert DigitsValue(b) == DigitsValue(a) * 10 + Digit(g[1]);
    assert DigitsValue(c) == DigitsValue(b) * 10 + Digit(g[2]);
    assert DigitsValue(g) == DigitsValue(c) * 10 + Digit(g[3]);
  }

  /** A year token at `i` with no `1` or `2` before it is the first one, and its value is read. */
  lemma YearFirstAt(s: string, i: nat)
    requires YearAt(s, i) && '1' !in s[..i] && '2' !in s[..i]
    ensures YearToken(s) == Some(1000 * Digit(s[i]) + 100 * Digit(s[i + 1]) + 10 * Digit(s[i + 2]) + Digit(s[i + 3]))
  {
    NoYearBefore(s, i);
    SearchFindsFirst(Year, s, i, Span(i, i + 4));
  }

  /** A text whose only year token is the four characters that end it reads as that year. */
  lemma YearAtEnd(a: string, b: string, c: string, y: string, year: int)
    requires '1' !in a && '2' !in a && '1' !in b && '2' !in b && '1' !in c && '2' !in c
    requires |y| == 4 && YearAt(y, 0)
    requires year == 1000 * Digit(y[0]) + 100 * Digit(y[1]) + 10 * Digit(y[2]) + Digit(y[3])
    ensures YearToken(a + b + c + y) == Some(year)
  {
    var p := a + b + c;
    var s := p + y;
    assert s[..|p|] == p;
    assert s[|p|..] == y;
    YearFirstAt(s, |p|);
  }

  /** `buyer_match.group(1).strip()`: the name after "entidad" (possibly empty). */
  function BuyerText(query: string): (b: Option<string>)
    ensures b.Some? <==> Search(Buyer, query, 0).Some?
    ensures b.Some? ==> b.value == Strip(Group(query, Search(Buyer, query, 0).value.group))
  {
    match Search(Buyer, query, 0)
    case Some(f) => Some(Strip(Group(query, f.group)))
    case None => None
  }

  /** "entidad", one space and a name character: a buyer is found. */
  lemma BuyerAfter(a: string, c: string, d: string)
    requires c != [] && !IsSpace(c[0]) && IsNameChar(c[0])
    ensures BuyerText(a + "entidad " + c + d).Some?
  {
    var pre := a + "entidad ";
    var s := pre + c + d;
    var i := |a|;
    assert s[i..i + 8] == "entidad ";
    assert s[i + 7] == ' ' && s[i + 8] == c[0];
    assert KeywordAt(s, "entidad", i);
    assert SkipWhile(s, i + 7, IsSpace) == i + 8;
    assert MatchAt(Buyer, s, i).Some?;
  }

  /** The supplier name after "proveedor"/"proveedora", without a trailing year (possibly
      empty). */
  function SupplierText(query: string): (n: Option<string>)
    ensures n.Some? <==> Search(Supplier, query, 0).Some?
    ensures n.Some? ==> n.value == SupplierName(Group(query, Search(Supplier, query, 0).value.group))
    ensures n.Some? && n.value != [] ==> !IsNameTrim(n.value[0]) && !IsNameTrim(n.value[|n.value| - 1])
  {
    match Search(Supplier, query, 0)
    case Some(f) => Some(SupplierName(Group(query, f.group)))
    case None => None
  }

  /** The first "proveedor" of a text, followed by one space and a name that runs to the
      end, is where the supplier pattern first matches, capturing the name. */
  lemma SupplierSearch(s: string, i: nat)
    requires KeywordAt(s, "proveedor", i) && i + 10 < |s| && s[i + 9] == ' ' && !IsSpace(s[i + 10])
    requires forall k :: i + 10 <= k < |s| ==> IsNameChar(s[k])
    requires forall m :: 3 <= m < i + 3 ==> LowerChar(s[m]) != 'v'
    ensures Search(Supplier, s, 0) == Some(Found(i, Span(i + 10, |s|)))
  {
    SupplierMatch(s, i);
    NoSupplierBefore(s, i);
    SearchFindsFirst(Supplier, s, i, Span(i + 10, |s|));
  }

  /** The first "proveedor" of a text, followed by one space and a name that runs to the
      end: the supplier is read from that name. */
  lemma SupplierFirst(s: string, i: nat)
    requires KeywordAt(s, "proveedor", i) && i + 10 < |s| && s[i + 9] == ' ' && !IsSpace(s[i + 10])
    requires forall k :: i + 10 <= k < |s| ==> IsNameChar(s[k])
    requires forall m :: 3 <= m < i + 3 ==> LowerChar(s[m]) != 'v'
    ensures SupplierText(s) == Some(SupplierName(s[i + 10..]))
  {
    SupplierSearch(s, i);
    assert Group(s, Span(i + 10, |s|)) == s[i + 10..];
  }

  /** No 'v' before "proveedor ", and a name after it: the supplier is read from the name. */
  lemma SupplierAfter(a: string, c: string, d: string)
    requires 'v' !in a && 'V' !in a
    requires c != [] && !IsSpace(c[0])
    requires forall k :: 0 <= k < |c| ==> IsNameChar(c[k])
    requires forall k :: 0 <= k < |d| ==> IsNameChar(d[k])
    ensures SupplierText(a + "proveedor " + c + d) == Some(SupplierName(c + d))
  {
    var pre := a + "proveedor ";
    var s := pre + c + d;
    var i := |a|;
    assert s == pre + (c + d);
    assert s[i..i + 10] == "proveedor ";
    assert s[|pre|..] == c + d;
    forall m | 3 <= m < i + 3
      ensures LowerChar(s[m]) != 'v'
    {
      if m < i {
        assert s[m] == a[m];
      } else {
        assert s[m] == "proveedor "[m - i];
      }
    }
    SupplierFirst(s, i);
  }

  /** `amount.replace(".", "").replace(",", "")`. */
  function DropSeparators(s: string): (r: string)
    requires forall k :: 0 <= k < |s| ==> IsAmountChar(s[k])
    ensures forall k :: 0 <= k < |r| ==> IsDigit(r[k])
    ensures s != [] && IsDigit(s[0]) ==> r != []
  {
    if s == [] then []
    else (if IsDigit(s[0]) then [s[0]] else []) + DropSeparators(s[1..])
  }

  /** Every digit of the amount is kept, as often as it occurs, and nothing else is. */
  lemma {:induction false} DropSeparatorsKeepsDigits(s: string)
    requires forall k :: 0 <= k < |s| ==> IsAmountChar(s[k])
    ensures forall c :: multiset(DropSeparators(s))[c] == if IsDigit(c) then multiset(s)[c] else 0
  {
    if s != [] {
      DropSeparatorsKeepsDigits(s[1..]);
      assert s == [s[0]] + s[1..];
    }
  }

  /** Removing the separators of two pieces and joining the results is removing them
      from the joined pieces: the digits keep their order. */
  lemma {:induction false} DropSeparatorsAppend(a: string, b: string)
    requires forall k :: 0 <= k < |a| ==> IsAmountChar(a[k])
    requires forall k :: 0 <= k < |b| ==> IsAmountChar(b[k])
    ensures forall k :: 0 <= k < |a + b| ==> IsAmountChar((a + b)[k])
    ensures DropSeparators(a + b) == DropSeparators(a) + DropSeparators(b)
    decreases |a|
  {
    if a == [] {
      assert a + b == b;
    } else {
      var ab := a + b;
      var head := if IsDigit(a[0]) then [a[0]] else [];
      assert ab[0] == a[0] && ab[1..] == a[1..] + b;
      DropSeparatorsAppend(a[1..], b);
      calc {
        DropSeparators(ab);
        head + DropSeparators(a[1..] + b);
        head + (DropSeparators(a[1..]) + DropSeparators(b));
        (head + DropSeparators(a[1..])) + DropSeparators(b);
      }
    }
  }

  /** `float(...)` of the amount after "mayor"/"mayor a": the number its digits write once
      the grouping marks are removed. */
  function AmountValue(lowered: string): (a: Option<real>)
    ensures a.Some? <==> Search(Amount, lowered, 0).Some?
    ensures a.Some? ==> a.value >= 0.0
    ensures a.Some? ==>
              a.value == DigitsValue(DropSeparators(Group(lowered, Search(Amount, lowered, 0).value.group))) as real
  {
    match Search(Amount, lowered, 0)
    case Some(f) => Some(DigitsValue(DropSeparators(Group(lowered, f.group))) as real)
    case None => None
  }

  /** `int(limit_match.group(1))`: the number after "top" / "primero(s)" / "primera(s)". */
  function LimitToken(lowered: string): (n: Option<nat>)
    ensures n.Some? <==> Search(Limit, lowered, 0).Some?
    ensures n.Some? ==>
              var g := Group(lowered, Search(Limit, lowered, 0).value.group);
              IsDigits(g) && n.value == DigitsValue(g)
  {
    match Search(Limit, lowered, 0)
    case Some(f) => Some(DigitsValue(Group(lowered, f.group)))
    case None => None
  }

  const Cuanto: string := "cu\U{e1}nto"

  /** `metrics`: ["total_amount"] exactly when the text asks how much, a total or a sum. */
  function HeuristicMetrics(lowered: string): (m: seq<Value>)
    ensures m == [] || m == [Str("total_amount")]
    ensures m != [] <==> Contains(lowered, Cuanto) || Contains(lowered, "total") || Contains(lowered, "sum")
  {
    if Contains(lowered, Cuanto) || Contains(lowered, "total") || Contains(lowered, "sum") then [Str("total_amount")]
    else []
  }

  /** `limit`: the number after the limit keyword, kept only when positive. */
  function HeuristicLimit(lowered: string): (l: Option<int>)
    ensures l.Some? ==> l.value > 0
    ensures l.Some? <==> LimitToken(lowered).Some? && LimitToken(lowered).value > 0
    ensures l.Some? ==> l.value == LimitToken(lowered).value
  {
    var n := LimitToken(lowered);
    if n.Some? && n.value > 0 then Some(n.value as int) else None
  }

  /** "top " at the start, then one digit and something else: the limit pattern matches
      at 0 and captures that digit. */
  lemma TopMatch(s: string)
    requires |s| >= 6 && s[..4] == "top " && IsDigit(s[4]) && !IsDigit(s[5])
    ensures MatchAt(Limit, s, 0) == Some(Span(4, 5))
  {
    assert OccursAt(s, "top", 0) by { assert s[..3] == s[..4][..3]; }
    assert SkipWhile(s, 3, IsSpace) == 4;
    assert SkipWhile(s, 4, IsDigit) == 5;
  }

  /** A text that opens with "top " and a one-digit number reads that digit. */
  lemma LimitTokenAtStart(s: string)
    requires |s| >= 6 && s[..4] == "top " && IsDigit(s[4]) && !IsDigit(s[5])
    ensures LimitToken(s) == Some(Digit(s[4]))
  {
    TopMatch(s);
    SearchFindsFirst(Limit, s, 0, Span(4, 5));
    var g := Group(s, Span(4, 5));
    assert g == [s[4]] && g[..0] == [];
    assert DigitsValue(g) == Digit(s[4]);
  }

  /** A text that opens with "top " and a one-digit number other than 0 asks for that many. */
  lemma LimitAtStart(s: string)
    requires |s| >= 6 && s[..4] == "top " && IsDigit(s[4]) && !IsDigit(s[5]) && s[4] != '0'
    ensures HeuristicLimit(s) == Some(Digit(s[4]))
  {
    LimitTokenAtStart(s);
    var n := LimitToken(s);
    assert n.value == Digit(s[4]) > 0;
    assert HeuristicLimit(s) == Some(n.value as int);
  }

  function YearFound(year: Option<int>): Option<Value> {
    if year.Some? then Some(Int(year.value)) else None
  }

  function BuyerFound(buyer: Option<string>): Option<Value> {
    if buyer.Some? then Some(Str(buyer.value)) else None
  }

  /** An empty supplier name is not kept. */
  function SupplierFound(supplier: Option<string>): Option<Value> {
    if supplier.Some? && supplier.value != [] then Some(Str(supplier.value)) else None
  }

  function AmountFound(amount: Option<real>): Option<Value> {
    if amount.Some? then Some(Float(amount.value)) else None
  }

  /** The assignments `_heuristic_parse` makes into `filters`, in its order. */
  function FillFilters(year: Option<Value>, buyer: Option<Value>, supplier: Option<Value>, amount: Option<Value>)
    : Entries
  {
    PutFound(PutFound(PutFound(PutFound([], "year", year), "buyer", buyer), "supplier", supplier), "min_amount", amount)
  }

  /** The same assignments, as a list of (key, found) pairs applied in order. */
  lemma FillFiltersInOrder(year: Option<Value>, buyer: Option<Value>, supplier: Option<Value>, amount: Option<Value>)
    ensures FillFilters(year, buyer, supplier, amount)
            == PutAll([], [("year", year), ("buyer", buyer), ("supplier", supplier), ("min_amount", amount)])
  {
    var a := [("year", year), ("buyer", buyer), ("supplier", supplier), ("min_amount", amount)];
    var f1 := PutFound([], "year", year);
    var f2 := PutFound(f1, "buyer", buyer);
    var f3 := PutFound(f2, "supplier", supplier);
    var f4 := PutFound(f3, "min_amount", amount);
    assert a[1..] == [("buyer", buyer), ("supplier", supplier), ("min_amount", amount)];
    assert a[1..][1..] == [("supplier", supplier), ("min_amount", amount)];
    assert a[1..][1..][1..] == [("min_amount", amount)];
    assert a[1..][1..][1..][1..] == [];
    assert PutAll(f4, []) == f4;
    assert PutAll(f3, a[1..][1..][1..]) == f4;
    assert PutAll(f2, a[1..][1..]) == f4;
    assert PutAll(f1, a[1..]) == f4;
  }

  /** Each filter is present exactly when its pattern found something, holding the value
      found, and no other key is ever set. */
  lemma FillFiltersFound(year: Option<Value>, buyer: Option<Value>, supplier: Option<Value>, amount: Option<Value>)
    ensures var f := FillFilters(year, buyer, supplier, amount);
            && DistinctKeys(f)
            && KeysIn(f, {"year", "buyer", "supplier", "min_amount"})
            && Lookup(f, "year") == year && Lookup(f, "buyer") == buyer
            && Lookup(f, "supplier") == supplier && Lookup(f, "min_amount") == amount
  {
    FillFiltersInOrder(year, buyer, supplier, amount);
    FourAssignmentsFound([("year", year), ("buyer", buyer), ("supplier", supplier), ("min_amount", amount)]);
  }

  lemma FourAssignmentsFound(a: seq<(string, Option<Value>)>)
    requires |a| == 4 && a[0].0 == "year" && a[1].0 == "buyer" && a[2].0 == "supplier" && a[3].0 == "min_amount"
    ensures var f := PutAll([], a);
            && DistinctKeys(f)
            && KeysIn(f, {"year", "buyer", "supplier", "min_amount"})
            && Lookup(f, "year") == a[0].1 && Lookup(f, "buyer") == a[1].1
            && Lookup(f, "supplier") == a[2].1 && Lookup(f, "min_amount") == a[3].1
  {
    PutAllFresh([], a, {});
    forall x | x in Names(a)
      ensures x in {"year", "buyer", "supplier", "min_amount"}
    {
      var i :| 0 <= i < |a| && a[i].0 == x;
      assert i == 0 || i == 1 || i == 2 || i == 3;
    }
  }

  function HeuristicFilters(query: string): Entries {
    var lowered := Lower(query);
    FillFilters(YearFound(YearToken(lowered)), BuyerFound(BuyerText(query)),
                SupplierFound(SupplierText(query)), AmountFound(AmountValue(lowered)))
  }

  /** `_heuristic_parse`, stated as a value. */
  function Heuristic(query: string): Response {
    var lowered := Lower(query);
    Response(Str(EntityFor(lowered)), HeuristicFilters(query), HeuristicMetrics(lowered), HeuristicLimit(lowered))
  }

  /** `_heuristic_parse`: fills the filters one pattern at a time. */
  method HeuristicParse(query: string) returns (r: Response)
    ensures r == Heuristic(query)
  {
    var lowered := Lower(query);
    var entity := EntityFor(lowered);

    var filters: Entries := [];
    var limit: Option<int> := None;
    var year := YearToken(lowered);
    if year.Some? {
      filters := Put(filters, "year", Int(year.value));
    }
    ghost var f1 := filters;
    var buyer := BuyerText(query);
    if buyer.Some? {
      filters := Put(filters, "buyer", Str(buyer.value));
    }
    assert filters == PutFound(f1, "buyer", BuyerFound(buyer));
    ghost var f2 := filters;
    var supplier := SupplierText(query);
    if supplier.Some? && supplier.value != [] {
      filters := Put(filters, "supplier", Str(supplier.value));
    }
    assert filters == PutFound(f2, "supplier", SupplierFound(supplier));
    var amount := AmountValue(lowered);
    if amount.Some? {
      filters := Put(filters, "min_amount", Float(amount.value));
    }
    assert filters == HeuristicFilters(query);

    var metrics: seq<Value> := [];
    if Contains(lowered, Cuanto) || Contains(lowered, "total") || Contains(lowered, "sum") {
      metrics := [Str("total_amount")];  // the one append to the empty list
    }
    assert metrics == HeuristicMetrics(lowered);

    var parsed := LimitToken(lowered);
    if parsed.Some? && parsed.value > 0 {
      limit := Some(parsed.value);
    }
    assert limit == HeuristicLimit(lowered);
    r := Response(Str(entity), filters, metrics, limit);
  }

  // ---------------------------------------------------------------- parse

  const Instructions: string :=
    "You are a query understanding system for the Colombian SECOP open "
    + "data portal. Convert the user request into JSON with keys 'entity', "
    + "'filters', 'metrics', and optionally 'limit' (a positive integer). "
    + "Filters must be a JSON object with simple key/value pairs or lists."

  /** The example answer, as `json.dumps` writes it. */
  const ExampleAnswer: string :=
    "{\"entity\": \"contracts\", \"filters\": {\"buyer\": \"Bogot\\u00e1\", \"year\": 2023}, "
    + "\"metrics\": [\"total_amount\"], \"limit\": 20}"

  const InputLabel: string := "\nInput: "
  const ExampleLabel: string := "\nRespond with JSON like: "

  /** `_build_prompt`: the instructions, the question and an example answer. */
  function BuildPrompt(query: string): (prompt: string)
    ensures |prompt| == |Instructions| + |InputLabel| + |query| + |ExampleLabel| + |ExampleAnswer|
    ensures prompt[..|Instructions|] == Instructions
    ensures prompt[|Instructions|..|Instructions| + |InputLabel|] == InputLabel
    ensures prompt[|Instructions| + |InputLabel|..|Instructions| + |InputLabel| + |query|] == query
    ensures prompt[|prompt| - |ExampleAnswer| - |ExampleLabel|..|prompt| - |ExampleAnswer|] == ExampleLabel
    ensures prompt[|prompt| - |ExampleAnswer|..] == ExampleAnswer
  {
    FivePieces(Instructions, InputLabel, query, ExampleLabel, ExampleAnswer);
    Instructions + InputLabel + query + ExampleLabel + ExampleAnswer
  }

  /** Each of five pieces can be cut back out of their concatenation. */
  lemma FivePieces(a: string, b: string, c: string, d: string, e: string)
    ensures var s := a + b + c + d + e;
            && |s| == |a| + |b| + |c| + |d| + |e|
            && s[..|a|] == a && s[|a|..|a| + |b|] == b && s[|a| + |b|..|a| + |b| + |c|] == c
            && s[|s| - |e| - |d|..|s| - |e|] == d && s[|s| - |e|..] == e
  {
    var s := a + b + c + d + e;
    assert s == (((a + b) + c) + d) + e;
    assert s[..|a|] == a;
    assert s[|a|..|a| + |b|] == b;
    assert s[|a| + |b|..|a| + |b| + |c|] == c;
    assert s[|s| - |e| - |d|..|s| - |e|] == d;
  }

  /** What the model's `generate` did. */
  datatype LlmReply = Threw | Returned(raw: Value)

  type Llm = string -> LlmReply

  /** The response the model path yields, or None when there is no model, it raised, or
      its answer was not usable. */
  function ModelResponse(rt: Runtime, llm: Option<Llm>, query: string): Option<Response> {
    match llm
    case None => None
    case Some(generate) =>
      match generate(BuildPrompt(query))
      case Threw => None
      case Returned(raw) =>
        match Coerce(rt, raw)
        case Accepted(g) => Some(g)
        case _ => None
  }

  /** The construction at the end of `parse`: a falsy entity becomes "contracts" and the
      question is kept as `raw_query`. */
  function Assemble(query: string, g: Response): (r: Result<QueryParams>)
    ensures r.Ok? ==> r.value.Valid() && r.value.rawQuery == query
    ensures r.Ok? ==> r.value.filters == g.filters && r.value.metrics == g.metrics && r.value.limit == g.limit
    ensures r.Ok? ==> r.value.entity == if Truthy(g.entity) && g.entity.Str? then g.entity.s else "contracts"
    ensures r.Ok? <==> UsableEntity(g.entity) && (g.limit.None? || g.limit.value > 0)
  {
    assert !IsBlank("contracts") by { assert "contracts"[0] == 'c'; }
    NewQueryParams(if Truthy(g.entity) then g.entity else Str("contracts"), g.filters, g.metrics, query, g.limit)
  }

  /** An entity `QueryParams` accepts after the "contracts" default: falsy, or a string
      that is not blank. */
  predicate UsableEntity(e: Value) {
    !Truthy(e) || (e.Str? && !IsBlank(e.s))
  }

  /** `parse` as written: the model's answer when there is one, else the heuristic, then
      construction, which raises on a blank or non-string entity from the model. */
  function ParseAsWritten(rt: Runtime, llm: Option<Llm>, query: string): Result<QueryParams> {
    match ModelResponse(rt, llm, query)
    case Some(g) => Assemble(query, g)
    case None => Assemble(query, Heuristic(query))
  }

  /** The heuristic always yields a valid record: its entity is one of three constants and
      its limit, if any, is positive. */
  lemma HeuristicAssembles(query: string)
    ensures Assemble(query, Heuristic(query)).Ok?
    ensures Assemble(query, Heuristic(query)).value.entity in {"suppliers", "agencies", "contracts"}
  {
    var e := EntityFor(Lower(query));
    assert !IsSpace(e[0]);
  }

  /** The record the heuristic path builds: the entity and limit the keywords give, and
      its filters. */
  lemma HeuristicPath(query: string, lowered: string)
    requires Lower(query) == lowered
    ensures var r := Assemble(query, Heuristic(query));
            && r.Ok? && r.value.entity == EntityFor(lowered) && r.value.limit == HeuristicLimit(lowered)
            && r.value.filters == HeuristicFilters(query)
  {
    HeuristicAssembles(query);
    assert Truthy(Str(EntityFor(lowered)));
  }

  /** Each heuristic filter holds what its pattern found. */
  lemma HeuristicFiltersFound(query: string, lowered: string)
    requires Lower(query) == lowered
    ensures var f := HeuristicFilters(query);
            && Lookup(f, "year") == YearFound(YearToken(lowered))
            && Lookup(f, "buyer") == BuyerFound(BuyerText(query))
            && Lookup(f, "supplier") == SupplierFound(SupplierText(query))
            && Lookup(f, "min_amount") == AmountFound(AmountValue(lowered))
  {
    FillFiltersFound(YearFound(YearToken(lowered)), BuyerFound(BuyerText(query)),
                     SupplierFound(SupplierText(query)), AmountFound(AmountValue(lowered)));
  }

  /** `parse`, corrected: a model answer whose entity construction would reject is treated
      like any other unusable answer, so the heuristic is used and `parse` never raises. */
  method Parse(rt: Runtime, llm: Option<Llm>, query: string) returns (p: QueryParams)
    ensures p.Valid() && p.rawQuery == query
    ensures var m := ModelResponse(rt, llm, query);
            if m.Some? && UsableEntity(m.value.entity) then Assemble(query, m.value) == Ok(p)
            else Assemble(query, Heuristic(query)) == Ok(p)
    ensures ParseAsWritten(rt, llm, query).Ok? ==> ParseAsWritten(rt, llm, query) == Ok(p)
  {
    ghost var m := ModelResponse(rt, llm, query);
    var response: Option<Response> := None;
    if llm.Some? {
      var prompt := BuildPrompt(query);
      var reply := llm.value(prompt);
      if reply.Returned? {
        var coerced := Coerce(rt, reply.raw);
        if coerced.Accepted? && UsableEntity(coerced.response.entity) {
          response := Some(coerced.response);
        }
      }
    }
    assert response == if m.Some? && UsableEntity(m.value.entity) then m else None;
    if response.None? {
      var h := HeuristicParse(query);
      HeuristicAssembles(query);
      response := Some(h);
    }
    var built := Assemble(query, response.value);
    p := built.value;
  }

  /** With no model configured the heuristic decides, whatever the question. */
  lemma NoModelMeansHeuristic(rt: Runtime, query: string)
    ensures ParseAsWritten(rt, None, query) == Assemble(query, Heuristic(query))
    ensures ParseAsWritten(rt, None, query).Ok?
  {
    HeuristicAssembles(query);
  }

  /** A model answer that is not JSON leaves the question to the heuristic. */
  lemma UnreadableAnswerMeansHeuristic(rt: Runtime, text: string, query: string)
    requires rt.loads(text).None?
    ensures ParseAsWritten(rt, Some((prompt: string) => Returned(Str(text))), query) == Assemble(query, Heuristic(query))
  {
    assert Coerce(rt, Str(text)) == Rejected;
  }

  /** A model answer that is accepted decides the record: the heuristic is not consulted. */
  lemma AcceptedAnswerDecides(rt: Runtime, raw: Value, query: string, g: Response)
    requires Coerce(rt, raw) == Accepted(g)
    ensures ParseAsWritten(rt, Some((prompt: string) => Returned(raw)), query) == Assemble(query, g)
  {
    var generate := (prompt: string) => Returned(raw);
    assert generate(BuildPrompt(query)) == Returned(raw);
  }

  /** A model that answers with a blank entity makes `parse` as written raise ValueError. */
  lemma AsWrittenRaisesOnBlankEntity(rt: Runtime, query: string, blank: string)
    requires blank != [] && IsBlank(blank)
    ensures ParseAsWritten(rt, Some((prompt: string) => Returned(Object([("entity", Str(blank))]))), query)
            == Err(ValueError)
  {
    var g := Response(Str(blank), [], [], None);
    BlankEntityAccepted(rt, blank);
    AcceptedAnswerDecides(rt, Object([("entity", Str(blank))]), query, g);
    BlankEntityRaises(query, g);
  }

  /** An answer holding only an entity passes `_coerce_response`: the entity is only
      checked later. */
  lemma BlankEntityAccepted(rt: Runtime, entity: string)
    ensures Coerce(rt, Object([("entity", Str(entity))])) == Accepted(Response(Str(entity), [], [], None))
  {
    var raw := Object([("entity", Str(entity))]);
    assert Lookup(raw.entries, "entity") == Some(Str(entity));
    assert Lookup(raw.entries, "filters") == None;
    assert Lookup(raw.entries, "metrics") == None;
    assert Lookup(raw.entries, "limit") == None;
  }

  /** An entity of one or more spaces is truthy, so it is not replaced by "contracts", and
      `QueryParams` refuses it with ValueError. */
  lemma BlankEntityRaises(query: string, g: Response)
    requires g.entity.Str? && g.entity.s != [] && IsBlank(g.entity.s)
    ensures Assemble(query, g) == Err(ValueError)
  {
    assert Truthy(g.entity);
  }
}

/** The parser's documented cases, worked out on the model: a usable model answer is
    taken as it is, an unreadable one falls back to the keywords, and the keywords find
    the entity, the supplier, the year and the limit of the example questions
    (backend/tests/test_query_parser.py). Each question is written as a few pieces so
    that its facts can be read off piece by piece. */
module ParserCases {
  import opened Values
  import opened Scan
  import opened QueryParser

  // ---------------------------------------------------------------- a usable model answer

  const AnswerFilters: Value := Object([("buyer", Str("Bogot\U{e1}"))])
  const AnswerMetrics: Value := List([Str("total_amount")])
  /** {"entity": "contracts", "filters": {"buyer": "Bogotá"}, "metrics": ["total_amount"]} */
  const Answer: Value := Object([("entity", Str("contracts")), ("filters", AnswerFilters), ("metrics", AnswerMetrics)])

  /** The answer holds its three keys. */
  lemma AnswerFields()
    ensures Field(Answer, "entity") == Str("contracts")
    ensures Field(Answer, "filters") == AnswerFilters
    ensures Field(Answer, "metrics") == AnswerMetrics
  {
    var d := Answer.entries;
    assert Lookup(d[1..][1..], "metrics") == Some(AnswerMetrics);
    assert Lookup(d[1..], "filters") == Some(AnswerFilters);
  }

  /** The answer has no "limit" key. */
  lemma AnswerHasNoLimit()
    ensures Field(Answer, "limit") == Null
  {
    var d := Answer.entries;
    assert d[1..][1..][1..] == [];
    assert Lookup(d[1..][1..][1..], "limit") == None;
    assert "metrics" != "limit" && "filters" != "limit" && "entity" != "limit" by { assert "limit"[0] == 'l'; }
  }

  /** The response the answer stands for: its entity, its buyer filter and its metric, and no limit. */
  const AnswerResponse: Response := Response(Str("contracts"), AnswerFilters.entries, AnswerMetrics.items, None)

  /** A payload with the answer's fields is accepted as that response. */
  lemma AnswerAccepted(rt: Runtime, raw: Value, payload: Value)
    requires Payload(rt, raw) == Some(payload) && payload.Object?
    requires Field(payload, "entity") == Str("contracts")
    requires Field(payload, "filters") == AnswerFilters
    requires Field(payload, "metrics") == AnswerMetrics
    requires Field(payload, "limit") == Null
    ensures Coerce(rt, raw) == Accepted(AnswerResponse)
  {
    assert CoerceLimit(Null) == Ok(None);
  }

  /** The response becomes the record with entity "contracts", the buyer filter and the metric. */
  lemma AnswerAssembled(query: string)
    ensures Assemble(query, AnswerResponse)
            == Ok(QueryParams("contracts", [("buyer", Str("Bogot\U{e1}"))], [Str("total_amount")], query, None))
  {
    assert !IsBlank("contracts") by { assert !IsSpace("contracts"[0]); }
  }

  /** A model whose text decodes to the answer decides the record, whatever the question. */
  lemma ModelAnswerTaken(rt: Runtime, text: string, query: string)
    requires rt.loads(text) == Some(Answer)
    ensures ParseAsWritten(rt, Some((prompt: string) => Returned(Str(text))), query)
            == Ok(QueryParams("contracts", [("buyer", Str("Bogot\U{e1}"))], [Str("total_amount")], query, None))
  {
    AnswerFields();
    AnswerHasNoLimit();
    AnswerAccepted(rt, Str(text), Answer);
    AcceptedAnswerDecides(rt, Str(text), query, AnswerResponse);
    AnswerAssembled(query);
  }

  // ---------------------------------------------------------------- an unreadable answer

  const AgencyQuery: string := "Contratos de la " + "entidad " + "Ministerio de Salud " + "2022"
  const AgencyLowered: string := "contratos de la " + "entidad " + "ministerio de salud " + "2022"

  lemma AgencyQueryLowered()
    ensures Lower(AgencyQuery) == AgencyLowered
  {
    LowerFour("Contratos de la ", "entidad ", "Ministerio de Salud ", "2022",
              "contratos de la ", "entidad ", "ministerio de salud ", "2022");
  }

  lemma AgencyQueryEntity()
    ensures EntityFor(AgencyLowered) == "agencies"
  {
    var a, b, c, d := "contratos de la ", "entidad ", "ministerio de salud ", "2022";
    LetterMissing(a, b, c, d, "proveedor", 3);
    LetterMissing(a, b, c, d, "supplier", 2);
    ContainsPiece(a, b, c, d, "entidad");
  }

  lemma AgencyQueryYear()
    ensures YearToken(AgencyLowered) == Some(2022)
  {
    YearAtEnd("contratos de la ", "entidad ", "ministerio de salud ", "2022", 2022);
  }

  lemma AgencyQueryBuyer()
    ensures BuyerText(AgencyQuery).Some?
  {
    BuyerAfter("Contratos de la ", "Ministerio de Salud ", "2022");
  }

  /** A model answering "not-json" is ignored: the keywords give the agencies entity, the
      year 2022 and a buyer. */
  lemma UnreadableAnswerFallsBack(rt: Runtime)
    requires rt.loads("not-json").None?
    ensures var r := ParseAsWritten(rt, Some((prompt: string) => Returned(Str("not-json"))), AgencyQuery);
            && r.Ok? && r.value.entity == "agencies"
            && Lookup(r.value.filters, "year") == Some(Int(2022))
            && HasKey(r.value.filters, "buyer")
  {
    AgencyQueryLowered();
    AgencyQueryEntity();
    AgencyQueryYear();
    AgencyQueryBuyer();
    HeuristicPath(AgencyQuery, AgencyLowered);
    HeuristicFiltersFound(AgencyQuery, AgencyLowered);
    UnreadableAnswerMeansHeuristic(rt, "not-json", AgencyQuery);
  }

  // ---------------------------------------------------------------- supplier and limit

  const SupplierQuery: string := "Top 5 contratos del " + "proveedor " + "ACME Corp " + "2024"
  const SupplierLowered: string := "top 5 contratos del " + "proveedor " + "acme corp " + "2024"

  lemma SupplierQueryLowered()
    ensures Lower(SupplierQuery) == SupplierLowered
  {
    LowerFour("Top 5 contratos del ", "proveedor ", "ACME Corp ", "2024",
              "top 5 contratos del ", "proveedor ", "acme corp ", "2024");
  }

  lemma SupplierQueryEntity()
    ensures EntityFor(SupplierLowered) == "suppliers"
  {
    ContainsPiece("top 5 contratos del ", "proveedor ", "acme corp ", "2024", "proveedor");
  }

  lemma SupplierQueryYear()
    ensures YearToken(SupplierLowered) == Some(2024)
  {
    YearAtEnd("top 5 contratos del ", "proveedor ", "acme corp ", "2024", 2024);
  }

  lemma SupplierQueryLimit()
    ensures HeuristicLimit(SupplierLowered) == Some(5)
  {
    LimitAtStart(SupplierLowered);
  }

  /** The trailing year is cut from the captured name, and the space before it. */
  lemma SupplierNameCase()
    ensures SupplierName("ACME Corp " + "2024") == "ACME Corp"
  {
    var s := "ACME Corp " + "2024";
    StripByExact(s, 0, |s|, IsSpace);
    assert s[0..|s|] == s;
    assert YearAt(s, 10);
    assert DropTrailingYear(s) == "ACME Corp ";
    StripByExact("ACME Corp ", 0, 9, IsNameTrim);
  }

  lemma SupplierQuerySupplier()
    ensures SupplierText(SupplierQuery) == Some("ACME Corp")
  {
    SupplierAfter("Top 5 contratos del ", "ACME Corp ", "2024");
    SupplierNameCase();
  }

  /** With no model, "Top 5 contratos del proveedor ACME Corp 2024" asks for the top five
      suppliers, the supplier "ACME Corp" and the year 2024. */
  lemma SupplierAndLimitDetected(rt: Runtime)
    ensures var r := ParseAsWritten(rt, None, SupplierQuery);
            && r.Ok? && r.value.entity == "suppliers"
            && Lookup(r.value.filters, "supplier") == Some(Str("ACME Corp"))
            && Lookup(r.value.filters, "year") == Some(Int(2024))
            && r.value.limit == Some(5)
  {
    SupplierQueryLowered();
    SupplierQueryEntity();
    SupplierQueryYear();
    SupplierQueryLimit();
    SupplierQuerySupplier();
    HeuristicPath(SupplierQuery, SupplierLowered);
    HeuristicFiltersFound(SupplierQuery, SupplierLowered);
    NoModelMeansHeuristic(rt, SupplierQuery);
  }

  // ---------------------------------------------------------------- entity detection

  const SuppliersQuery: string := "Quiero saber " + "proveedores " + "en " + "2023"
  const SuppliersLowered: string := "quiero saber " + "proveedores " + "en " + "2023"
  const AgenciesQuery: string := "Informaci\U{f3}n de la " + "entidad " + "nacional" + ""
  const AgenciesLowered: string := "informaci\U{f3}n de la " + "entidad " + "nacional" + ""
  const ContractsQuery: string := "Total " + "contratos" + "" + ""
  const ContractsLowered: string := "total " + "contratos" + "" + ""

  lemma SuppliersQueryEntity()
    ensures Lower(SuppliersQuery) == SuppliersLowered && EntityFor(SuppliersLowered) == "suppliers"
  {
    LowerFour("Quiero saber ", "proveedores ", "en ", "2023", "quiero saber ", "proveedores ", "en ", "2023");
    ContainsPiece("quiero saber ", "proveedores ", "en ", "2023", "proveedor");
  }

  lemma AgenciesQueryLowered()
    ensures Lower(AgenciesQuery) == AgenciesLowered
  {
    LowerFour("Informaci\U{f3}n de la ", "entidad ", "nacional", "",
              "informaci\U{f3}n de la ", "entidad ", "nacional", "");
  }

  lemma AgenciesQueryEntity()
    ensures EntityFor(AgenciesLowered) == "agencies"
  {
    var a, b, c, d := "informaci\U{f3}n de la ", "entidad ", "nacional", "";
    LetterMissing(a, b, c, d, "proveedor", 3);
    LetterMissing(a, b, c, d, "supplier", 2);
    ContainsPiece(a, b, c, d, "entidad");
  }

  lemma ContractsQueryLowered()
    ensures Lower(ContractsQuery) == ContractsLowered
  {
    LowerFour("Total ", "contratos", "", "", "total ", "contratos", "", "");
  }

  lemma ContractsQueryEntity()
    ensures EntityFor(ContractsLowered) == "contracts"
  {
    var a, b, c, d := "total ", "contratos", "", "";
    LetterMissing(a, b, c, d, "proveedor", 3);
    LetterMissing(a, b, c, d, "supplier", 2);
    LetterMissing(a, b, c, d, "entidad", 3);
    LetterMissing(a, b, c, d, "agency", 1);
  }

  /** With no model, "Quiero saber proveedores en 2023" is about suppliers, "Información
      de la entidad nacional" about agencies, and "Total contratos" about contracts. */
  lemma EntityDetected(rt: Runtime)
    ensures var r := ParseAsWritten(rt, None, SuppliersQuery); r.Ok? && r.value.entity == "suppliers"
    ensures var r := ParseAsWritten(rt, None, AgenciesQuery); r.Ok? && r.value.entity == "agencies"
    ensures var r := ParseAsWritten(rt, None, ContractsQuery); r.Ok? && r.value.entity == "contracts"
  {
    SuppliersQueryEntity();
    HeuristicPath(SuppliersQuery, SuppliersLowered);
    NoModelMeansHeuristic(rt, SuppliersQuery);
    AgenciesQueryLowered();
    AgenciesQueryEntity();
    HeuristicPath(AgenciesQuery, AgenciesLowered);
    NoModelMeansHeuristic(rt, AgenciesQuery);
    ContractsQueryLowered();
    ContractsQueryEntity();
    HeuristicPath(ContractsQuery, ContractsLowered);
    NoModelMeansHeuristic(rt, ContractsQuery);
  }
}

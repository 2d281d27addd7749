# secoppal core, modelled in Dafny

secoppal answers questions about Colombian public procurement (SECOP) asked in plain
Spanish or English, over WhatsApp or the web. Its core turns a question into a search and
the rows found into a reply:

- **query parser** (`QueryParser`): asks a language model for a JSON description of the
  question (entity, filters, metrics, limit), checks and coerces its answer, and falls back
  to a deterministic keyword and regular-expression heuristic;
- **entity resolver** (`EntityResolver`): looks the entity mention up in a ChromaDB
  collection, optionally reranks the candidates with Cohere, and keeps the best one;
- **SoQL builder** (`SoqlBuilder`): picks the Socrata dataset and renders the filters,
  metrics and limit as `$where`, `$select` and `$limit` parameters;
- **SECOP client** (`SecopClient`): queries the Socrata API behind a Redis cache, keyed by
  the dataset and the parameters serialised with sorted keys, retrying failed calls with
  linear backoff;
- **result formatter** (`Formatter`): renders rows as a short WhatsApp message or as a web
  payload.

Python values are the `Values.Value` datatype. A dict is a sequence of (key, value) entries
in insertion order. Python's own text conversions (`str()` of floats and containers,
`json.dumps`, `json.loads`) are a `Runtime` record of functions passed in. The language
model, ChromaDB, Cohere and Socrata are functions or objects given as parameters.
`Scan` re-implements the regular expressions of the heuristic as leftmost searches.
`Canonical` gives the sorted-key order that `json.dumps(..., sort_keys=True)` writes.

Stateful parts are classes. Socrata and Redis are objects whose state the client changes: a
call log, and a store with expiries. The loops of the source are methods with loop
invariants, each proved equal to a specification function. The properties are proved about
those functions.

## Model

| member | source | states |
|---|---|---|
| QueryParser.NewQueryParams | backend/app/core/query_parser.py:13-27 | Construction succeeds exactly when the entity is a non-blank string and the limit is absent or positive. A falsy or blank entity, or a non-positive limit, raises ValueError. A truthy non-string entity raises AttributeError. |
| Values.StripEmptyIffBlank | backend/app/core/query_parser.py:24-25 | `entity.strip()` is empty exactly when every character is whitespace. |
| QueryParser.AsDict | backend/app/core/query_parser.py:29-36 | `as_dict` holds exactly the five fields, in declaration order, each under its own name with the field's value. |
| QueryParser.AsDictKeysAreFields | backend/app/core/query_parser.py:29-36 | Every key `as_dict` writes is one of the five field names. |
| QueryParser.FromDictOfFields | backend/app/core/query_parser.py:23-36 | A dict whose keys are all field names and that holds a valid record's five fields rebuilds exactly that record. |
| QueryParser.FromDictAsDict | backend/app/core/query_parser.py:29-36 | Building a record from the dict of a valid record gives the same record back. |
| QueryParser.FromDictIdempotent | backend/app/core/query_parser.py:29-36 | Going record → dict → record a second time changes nothing. |
| QueryParser.CoerceLimit | backend/app/core/query_parser.py:132-140 | A positive int stays as it is, and any other int gives no limit. A string of ASCII digits is read as its number and kept when positive. A string that `isdigit()` accepts but that holds a superscript ¹, ² or ³ raises ValueError, exactly then. Anything else gives no limit. |
| QueryParser.CoerceLimitOfText | backend/app/core/query_parser.py:137-140 | The decimal text of a positive number coerces back to that number. |
| QueryParser.ListOf | backend/app/core/query_parser.py:149 | `list(metrics)` gives a list's items, a string's characters, or a dict's keys. |
| QueryParser.Coerce | backend/app/core/query_parser.py:114-151 | These are rejected: None, text that is not JSON, and values that are neither str nor dict. It raises exactly when the decoded JSON is not an object, or its limit makes `int()` raise. Otherwise, filters that are not a dict or metrics that are not iterable are rejected. An accepted answer carries the payload's entity, its filters (or none when falsy), `list()` of its metrics (or none when falsy), and the coerced limit. |
| QueryParser.EntityFor | backend/app/core/query_parser.py:155-160 | The entity is "suppliers" exactly when the question mentions proveedor or supplier. Otherwise it is "agencies" when it mentions entidad or agency, else "contracts". |
| Scan.Lower | backend/app/core/query_parser.py:155 | Lowering keeps the length and lowers each character. |
| Scan.Search | backend/app/core/query_parser.py:165-169 | `re.search` returns the leftmost position where the pattern matches, with that match's group. It finds nothing exactly when no position matches. |
| QueryParser.YearToken | backend/app/core/query_parser.py:165-167 | A year is found exactly when the year pattern matches. It is the number its four digits write, taken at the first match, and lies in 1900..2099. |
| QueryParser.YearAtEnd | backend/app/core/query_parser.py:165-167 | When the text has no 1 or 2 before its last four characters and those are a 19xx/20xx token, the year is the number they write. |
| QueryParser.YearFirstAt | backend/app/core/query_parser.py:165-167 | A 19xx/20xx token with no 1 or 2 before it is the year found, read digit by digit. |
| QueryParser.FourDigits | backend/app/core/query_parser.py:165-167 | Four digits starting 19 or 20 read as thousands, hundreds, tens and units, between 1900 and 2099. |
| QueryParser.BuyerText | backend/app/core/query_parser.py:169-171 | A buyer is found exactly when the `entidad` pattern matches, and it is the stripped group. |
| QueryParser.BuyerAfter | backend/app/core/query_parser.py:169-171 | "entidad", a space and a name character give a buyer. |
| Scan.DropTrailingYear | backend/app/core/query_parser.py:176 | The name loses its last four characters exactly when they are a 19xx/20xx year at a word boundary. Otherwise it is unchanged. |
| Scan.SupplierName | backend/app/core/query_parser.py:175-176 | The cleaned supplier name is one piece of the stripped group without its trailing year. Only spaces, commas, dots and hyphens lie outside it, and it neither starts nor ends with one. |
| QueryParser.SupplierText | backend/app/core/query_parser.py:173-178 | A supplier candidate exists exactly when the `proveedor` pattern matches. It is the name cleaned from the first match's group, trimmed of separators at both ends. |
| QueryParser.SupplierFirst | backend/app/core/query_parser.py:173-176 | At the first "proveedor", followed by one space and a name that runs to the end, the supplier is the name cleaned from that rest. |
| QueryParser.SupplierAfter | backend/app/core/query_parser.py:173-176 | With no v before "proveedor " and a name after it, the supplier is that name, cleaned. |
| QueryParser.SupplierSearch | backend/app/core/query_parser.py:173 | The first "proveedor" followed by one space and a name that runs to the end is where the supplier search stops, capturing that name. |
| QueryParser.DropSeparators | backend/app/core/query_parser.py:182 | Removing dots and commas from an amount leaves only digits, and at least one digit. |
| QueryParser.DropSeparatorsKeepsDigits | backend/app/core/query_parser.py:182 | Removing the separators keeps every digit, as many times as it occurs, and nothing else. |
| QueryParser.DropSeparatorsAppend | backend/app/core/query_parser.py:182 | Removing the separators works piece by piece, so the digits keep their order. |
| QueryParser.AmountValue | backend/app/core/query_parser.py:180-186 | An amount is found exactly when the `mayor` pattern matches. It is the number written by the first match's digits once dots and commas are removed, so it is not negative. |
| QueryParser.HeuristicMetrics | backend/app/core/query_parser.py:188-190 | The metrics are `["total_amount"]` exactly when the question mentions cuánto, total or sum, and empty otherwise. |
| QueryParser.LimitToken | backend/app/core/query_parser.py:192-195 | A limit token is found exactly when the `top`/`primero` pattern matches. Its group is all digits, and the token is the number they write. |
| QueryParser.HeuristicLimit | backend/app/core/query_parser.py:192-199 | The heuristic limit is present exactly when the token is found and positive, and it is then that token. |
| QueryParser.LimitAtStart | backend/app/core/query_parser.py:192-199 | A text opening with "top " and one non-zero digit has that digit as its limit. |
| QueryParser.LimitTokenAtStart | backend/app/core/query_parser.py:192-195 | A text opening with "top " and one digit reads that digit as the limit token. |
| QueryParser.TopMatch | backend/app/core/query_parser.py:192 | "top " then a single digit at the start of the text is a limit match capturing that digit. |
| QueryParser.FillFiltersInOrder | backend/app/core/query_parser.py:162-186 | The four filter assignments are applied one after the other: year, buyer, supplier, min_amount. |
| QueryParser.FillFiltersFound | backend/app/core/query_parser.py:162-186 | Each filter is present exactly when its pattern found a value, and holds that value. Keys are distinct, and no other key is ever set. |
| QueryParser.HeuristicParse | backend/app/core/query_parser.py:154-207 | The step-by-step heuristic yields the same entity, filters, metrics and limit as the specification `Heuristic`. |
| QueryParser.HeuristicAssembles | backend/app/core/query_parser.py:154-207 | The heuristic's answer always builds a valid record, with entity suppliers, agencies or contracts. |
| QueryParser.HeuristicPath | backend/app/core/query_parser.py:154-207 | The heuristic record carries the entity the keywords give, the heuristic limit and the heuristic filters. |
| QueryParser.HeuristicFiltersFound | backend/app/core/query_parser.py:162-186 | Each heuristic filter holds what its pattern found: the year, the buyer, the non-empty supplier and the amount. |
| QueryParser.BuildPrompt | backend/app/core/query_parser.py:97-112 | The prompt is the instructions, "\nInput: ", the question verbatim at a fixed offset, "\nRespond with JSON like: " and the JSON example, which ends it. |
| QueryParser.FivePieces | backend/app/core/query_parser.py:97-112 | Each of the five pieces of the prompt can be cut back out of it at its own offset. |
| QueryParser.Assemble | backend/app/core/query_parser.py:86-92 | Construction keeps the answer's filters, metrics and limit, and keeps the question as raw_query. A falsy entity becomes "contracts". It succeeds exactly when the entity is falsy or a non-blank string and the limit is absent or positive. |
| QueryParser.Parse | backend/app/core/query_parser.py:69-94 | A usable model answer is used, otherwise the heuristic. The result is always a valid record with the question as raw_query. Whenever `parse` as written returns, it returns this same record. |
| QueryParser.NoModelMeansHeuristic | backend/app/core/query_parser.py:73-84 | With no model configured, the heuristic decides and parsing always succeeds. |
| QueryParser.UnreadableAnswerMeansHeuristic | backend/app/core/query_parser.py:114-122 | A model answer that is not JSON leaves the question to the heuristic. |
| QueryParser.AcceptedAnswerDecides | backend/app/core/query_parser.py:74-92 | A model answer that `_coerce_response` accepts decides the record: the heuristic is not consulted. |
| QueryParser.AsWrittenRaisesOnBlankEntity | backend/app/core/query_parser.py:86-92 | A model answering `{"entity": e}`, with e one or more whitespace characters, makes `parse` as written raise ValueError. |
| QueryParser.BlankEntityAccepted | backend/app/core/query_parser.py:114-142 | An answer holding only an entity passes `_coerce_response` with no filters, no metrics and no limit. |
| QueryParser.BlankEntityRaises | backend/app/core/query_parser.py:23-25 | An entity of one or more whitespace characters is truthy, so it is kept, and `QueryParams` refuses it with ValueError. |
| Scan.SearchFindsFirst | backend/app/core/query_parser.py:165-192 | `re.search` returns the first position where the pattern matches. |
| Scan.NoYearBefore | backend/app/core/query_parser.py:165 | No year token starts where neither 1 nor 2 occurs. |
| Scan.NoKeywordBefore | backend/app/core/query_parser.py:169-173 | A keyword cannot start where one of its letters would be missing. |
| Scan.NoSupplierBefore | backend/app/core/query_parser.py:173 | "proveedor" cannot start where no v lies at its fourth letter. |
| Scan.SupplierMatch | backend/app/core/query_parser.py:173 | "proveedor", one space and a name running to the end: the name is the captured group. |
| Scan.LowerFour | backend/app/core/query_parser.py:155 | Lowering a text lowers each of its pieces. |
| Scan.LowersToAppend | backend/app/core/query_parser.py:155 | Two pieces that lower to two texts lower, joined, to those texts joined. |
| Values.StripByExact | backend/app/core/query_parser.py:175-176 | Stripping yields exactly the piece that starts and ends with kept characters and has only stripped characters around it. |
| Values.LetterMissing | backend/app/core/query_parser.py:157-160 | A text that lacks one of the letters of a word does not contain the word. |
| Values.ContainsPiece | backend/app/core/query_parser.py:157-160 | A text contains whatever one of its pieces starts with. |
| ParserCases.AnswerFields | backend/tests/test_query_parser.py:24-33 | The model answer has the entity "contracts", the buyer filter and the metric. |
| ParserCases.AnswerHasNoLimit | backend/tests/test_query_parser.py:24-33 | The model answer has no limit. |
| ParserCases.AnswerAccepted | backend/tests/test_query_parser.py:24-33 | A payload with that answer's fields is accepted with its entity, buyer filter and metric, and no limit. |
| ParserCases.AnswerAssembled | backend/tests/test_query_parser.py:24-41 | That response becomes the record with entity "contracts", buyer "Bogotá", metrics ["total_amount"], the question as raw_query and no limit. |
| ParserCases.ModelAnswerTaken | backend/tests/test_query_parser.py:24-41 | A model whose text decodes to that answer gives, for any question, the record with entity "contracts", buyer "Bogotá", metrics ["total_amount"], the question as raw_query and no limit. |
| ParserCases.AgencyQueryLowered | backend/tests/test_query_parser.py:48 | The lowered question is its pieces lowered. |
| ParserCases.AgencyQueryEntity | backend/tests/test_query_parser.py:48-50 | "Contratos de la entidad Ministerio de Salud 2022" is about agencies. |
| ParserCases.AgencyQueryYear | backend/tests/test_query_parser.py:48-51 | Its year is 2022. |
| ParserCases.AgencyQueryBuyer | backend/tests/test_query_parser.py:48-52 | It names a buyer. |
| ParserCases.UnreadableAnswerFallsBack | backend/tests/test_query_parser.py:44-52 | A model answering "not-json" is ignored: the record is about agencies, with year 2022 and a buyer. |
| ParserCases.SupplierQueryLowered | backend/tests/test_query_parser.py:58 | The lowered question is its pieces lowered. |
| ParserCases.SupplierQueryEntity | backend/tests/test_query_parser.py:58-60 | "Top 5 contratos del proveedor ACME Corp 2024" is about suppliers. |
| ParserCases.SupplierQueryYear | backend/tests/test_query_parser.py:58-62 | Its year is 2024. |
| ParserCases.SupplierQueryLimit | backend/tests/test_query_parser.py:58-63 | Its limit is 5. |
| ParserCases.SupplierNameCase | backend/tests/test_query_parser.py:58-61 | The name "ACME Corp 2024" is cleaned to "ACME Corp". |
| ParserCases.SupplierQuerySupplier | backend/tests/test_query_parser.py:58-61 | Its supplier is "ACME Corp". |
| ParserCases.SupplierAndLimitDetected | backend/tests/test_query_parser.py:55-63 | With no model, the record is about suppliers, with supplier "ACME Corp", year 2024 and limit 5. |
| ParserCases.SuppliersQueryEntity | backend/tests/test_query_parser.py:66-71 | "Quiero saber proveedores en 2023" lowers piece by piece and is about suppliers. |
| ParserCases.AgenciesQueryLowered | backend/tests/test_query_parser.py:66-71 | The lowered question is its pieces lowered. |
| ParserCases.AgenciesQueryEntity | backend/tests/test_query_parser.py:66-71 | "Información de la entidad nacional" is about agencies. |
| ParserCases.ContractsQueryLowered | backend/tests/test_query_parser.py:66-71 | The lowered question is its pieces lowered. |
| ParserCases.ContractsQueryEntity | backend/tests/test_query_parser.py:66-71 | "Total contratos" is about contracts. |
| ParserCases.EntityDetected | backend/tests/test_query_parser.py:66-77 | With no model, the three questions give the entities suppliers, agencies and contracts. |
| EntityResolver.HitsAt | backend/app/core/entity_resolver.py:62-68 | The zip of documents, metadatas and distances stops at the shortest list. Hit k is named by its document, scored one minus its distance, and carries its metadata, or {} when there is none. |
| EntityResolver.SearchChroma | backend/app/core/entity_resolver.py:50-72 | The loop over the zipped results builds exactly the candidates of `Candidates`. |
| EntityResolver.CandidatesCases | backend/app/core/entity_resolver.py:50-72 | There is always at least one candidate. With no client, or a failed query, the mention is the one candidate, with score 1.0. With no hits, the mention is the one candidate, with score 0.0. Otherwise there is one candidate per hit, in order. |
| EntityResolver.MergeAppend | backend/app/core/entity_resolver.py:86-98 | The reranked list is built item by item. An item adds one rescored candidate when its index points into the candidates, and nothing otherwise. |
| EntityResolver.MergeEmpty | backend/app/core/entity_resolver.py:86-100 | Reranking yields nothing exactly when no result index points at a candidate. |
| EntityResolver.MergeFrom | backend/app/core/entity_resolver.py:86-98 | Every reranked entity has the name and metadata of the candidate its result points at, and that result's relevance score. |
| EntityResolver.RerankWithCohere | backend/app/core/entity_resolver.py:74-100 | The rerank loop computes `Rerank` of Cohere's reply to the mention and the candidates' text and metadata documents. |
| EntityResolver.RerankFallsBack | backend/app/core/entity_resolver.py:74-100 | Reranking never empties a non-empty list. On failure, or when no result points at a candidate, the candidates are kept as they were. Otherwise the merged list is used. |
| EntityResolver.Resolve | backend/app/core/entity_resolver.py:33-47 | `resolve` returns None exactly when there are no candidates. Otherwise it returns the first of the ranked list. Cohere is asked only when it is configured and there is more than one candidate. |
| EntityResolver.RankedFromCandidates | backend/app/core/entity_resolver.py:33-47 | The ranked list is never empty. Each entry is one of the search candidates, possibly with a new score. |
| EntityResolver.ResolveWithoutChroma | backend/app/core/entity_resolver.py:51-53 | Without Chroma, the ranked list is the mention alone, with score 1.0. |
| SoqlBuilder.Escape | backend/app/core/soql_builder.py:49 | Doubling quotes leaves every quote in a pair. |
| SoqlBuilder.UnescapeEscape | backend/app/core/soql_builder.py:49 | Undoubling the quotes of an escaped string gives the original string back. |
| SoqlBuilder.EscapeWithoutQuotes | backend/app/core/soql_builder.py:49 | A string without quotes is left unchanged by escaping. |
| SoqlBuilder.Quote | backend/app/core/soql_builder.py:56-61 | Numbers (bools included) are written as `str()`. Anything else is written between single quotes, escaped so that undoubling gives back its `str()`. |
| SoqlBuilder.Like | backend/app/core/soql_builder.py:48-50 | A string filter is `upper(key) LIKE upper('%…%')`, and the pattern inside undoubles to the value. |
| SoqlBuilder.LikeWithoutQuotes | backend/app/core/soql_builder.py:48-50 | A value without quotes appears in its LIKE clause as it is. |
| SoqlBuilder.RenderFilter | backend/app/core/soql_builder.py:45-54 | A clause is never empty. Numbers give `key = value`, strings give LIKE, lists and dicts give `key IN (…)` over the quoted elements or keys, and None gives `key = null`. |
| SoqlBuilder.NonEmpty | backend/app/core/soql_builder.py:43 | `filter(None, …)` keeps only non-empty clauses, and leaves the list unchanged when no clause is empty. |
| SoqlBuilder.NonEmptyKeepsParts | backend/app/core/soql_builder.py:43 | The clauses kept are all the non-empty ones, each as many times as it occurs. |
| SoqlBuilder.NonEmptyAppend | backend/app/core/soql_builder.py:43 | Filtering works piece by piece, so the kept clauses stay in their order. |
| SoqlBuilder.WhereEmptyIff | backend/app/core/soql_builder.py:39-43 | The where clause is the rendered filters joined by " AND ". It is empty exactly when there are no filters. |
| SoqlBuilder.BuildWhere | backend/app/core/soql_builder.py:39-43 | The clause-collecting loop computes `Where`. |
| SoqlBuilder.SoqlParamsKeys | backend/app/core/soql_builder.py:19-29 | `$where`, `$select` and `$limit` are each present exactly when they have a value, and hold it. The keys are distinct, and the params are `{}` when there is none. |
| SoqlBuilder.Builder.ResolveDataset | backend/app/core/soql_builder.py:34-37 | A truthy `dataset_id` in the resolved entity's metadata wins. Next comes the dataset map entry for the entity. Last comes the entity itself. |
| SoqlBuilder.Builder.Build | backend/app/core/soql_builder.py:17-31 | The key-by-key construction computes `Payload`. It raises TypeError when a metric is not a string. |
| SoqlBuilder.PayloadParams | backend/app/core/soql_builder.py:17-31 | Building fails exactly when a metric is not a string. The payload is the dataset and then the params. `$where` is present exactly when there are filters, `$select` exactly when there are metrics, and `$limit` exactly when there is a limit. Each holds its rendered value. The params are `{}` exactly when all three are absent. |
| SoqlBuilder.BuildIncludesLimitAndFilters | backend/tests/test_soql_builder.py:13-28 | For any quote-free string filter, one metric and a positive limit: the dataset is the entity, `$select` is the metric, `$limit` is the limit, and `$where` is the plain LIKE clause. |
| SoqlBuilder.ResolvedEntityMetadataPrecedence | backend/tests/test_soql_builder.py:31-39 | The resolved entity's `dataset_id` beats the dataset map, and with nothing to filter the params are `{}`. |
| Canonical.SortEntries | backend/app/core/secop_client.py:74 | Sorting a dict's entries permutes them (same multiset). |
| Canonical.SortSorted | backend/app/core/secop_client.py:74 | The sorted entries of a dict are in strictly ascending key order. |
| Canonical.SortedUnique | backend/app/core/secop_client.py:74 | Two key-ascending entry lists with the same entries are equal. |
| Canonical.SortedTail | backend/app/core/secop_client.py:74 | Dropping the first entry of a key-ascending list keeps it ascending. |
| Canonical.SortedSameFirst | backend/app/core/secop_client.py:74 | Two non-empty key-ascending lists with the same entries start with the same entry. |
| Canonical.CanonIgnoresOrder | backend/app/core/secop_client.py:74 | Two values equal up to the insertion order of the keys of any dict inside them, at any depth, have the same sorted-key form. |
| Canonical.CanonObjectsEqual | backend/app/core/secop_client.py:74 | Two dicts with the same keys, whose values have pairwise the same sorted-key form, sort to the same entries. |
| SecopClient.CacheKeyIgnoresOrder | backend/app/core/secop_client.py:72-75 | Parameter dicts equal up to key order, at any depth, give the same cache key. |
| SecopClient.FirstSuccess | backend/app/core/secop_client.py:52-65 | It returns the first call in a range that succeeds, with all earlier ones failing. It returns nothing exactly when every call in the range fails. |
| SecopClient.RetryingOutcome | backend/app/core/secop_client.py:52-65 | The loop makes between 1 and `max_retries + 1` calls and stops at the first success, returning its rows. It raises the last call's error exactly when all `max_retries + 1` calls fail. Before retry k it sleeps backoff × k. |
| SecopClient.RetryingStops | backend/app/core/secop_client.py:53-57 | When call `attempt` is the first to succeed, the loop ends there with its rows after `attempt` sleeps. |
| SecopClient.RetryingGivesUp | backend/app/core/secop_client.py:58-62 | When every call fails, the loop raises after `max_retries + 1` calls with the last error. |
| SecopClient.SecopClient.constructor | backend/app/core/secop_client.py:20-40 | The client keeps the given Socrata client, the cache, and the retry settings. |
| SecopClient.SecopClient.Retry | backend/app/core/secop_client.py:52-65 | The retry loop returns the rows or error of `Retrying` and the sleeps it prescribes. The remote log grows by exactly that many identical calls. |
| SecopClient.SecopClient.Query | backend/app/core/secop_client.py:42-70 | On a cache hit it returns the decoded cached text, with no remote call and the cache unchanged. Otherwise it runs the retry loop. A success, and only a success, is stored under the key with TTL 300 when a cache is configured. |
| Formatter.CapitalizeWord | backend/app/core/formatter.py:39 | `capitalize()` of a lower-case ASCII word upper-cases its first letter and keeps the rest. |
| Formatter.TitleCase | backend/app/core/formatter.py:39 | `capitalize()` gives one character for the first letter, except ß, which becomes "Ss". |
| Formatter.BuyerSummary | backend/app/core/formatter.py:35-42 | A record holding only a non-empty buyer is summarised as "Buyer: " and the name. |
| Formatter.PiecesEmptyIff | backend/app/core/formatter.py:36-41 | No pieces are collected exactly when none of the keys is present and truthy. |
| Formatter.SummaryPiecesInOrder | backend/app/core/formatter.py:37-39 | The summary pieces are those of buyer, supplier, amount and status, in that order. Each appears exactly when its key is present and truthy. |
| Formatter.CollectPieces | backend/app/core/formatter.py:36-39 | The piece-collecting loop computes `Pieces`. |
| Formatter.SummaryFallsBack | backend/app/core/formatter.py:40-42 | With no qualifying key the summary is the record's JSON. Otherwise it is the pieces joined by " \| ". |
| Formatter.SummariseRecord | backend/app/core/formatter.py:35-42 | `_summarise_record` computes `Summary`. |
| Formatter.NumberSummaries | backend/app/core/formatter.py:18-21 | The header is followed by "i. summary" for each shown record, numbered from 1. |
| Formatter.FormatForWhatsapp | backend/app/core/formatter.py:13-25 | `format_for_whatsapp` computes `WhatsApp`. |
| Formatter.WhatsAppNoResultsIff | backend/app/core/formatter.py:14-18 | The message is the no-results sentence exactly when there are no records. Otherwise it begins with the header. |
| Formatter.LinesShape | backend/app/core/formatter.py:18-24 | There are at most seven lines: the header, one line for each of the first min(5, n) records, and the "Y n−5 resultados más…" line exactly when n > 5. |
| Formatter.WebPayload | backend/app/core/formatter.py:27-33 | The web payload holds `query = as_dict()`, `count` equal to the number of records, and the records themselves, unchanged and in order. |

## Left out

- Logging (`logger.debug` and friends), including the `params.to_json()` call made only for a debug message.
- HTTP routing, WhatsApp request parsing and the search-service glue that calls these components in sequence: these are outside the core.
- Real I/O:
  - the language model, ChromaDB, Cohere, Socrata and Redis are parameters;
  - `time.sleep` is not performed; the sleeps are returned as a list of durations.
- SecopClient.SecopClient.constructor: building a `sodapy.Socrata` client from a domain and credentials, and the RuntimeError raised when sodapy is missing, depend on a library being installed. The model always receives the Socrata client.
- SecopClient.SecopClient.Query: cache entries never expire. The TTL is recorded, but time is not modelled. Redis returns bytes; the model stores text.
- SecopClient.SecopClient.Query: the failure of `json.dumps` on rows that are not JSON-serialisable is not modelled.
- SecopClient.CacheKeyIgnoresOrder: equal dicts means the same keys mapping to equal values, compared at any depth. Python also treats `1`, `1.0` and `True` as equal, which this does not capture.
- QueryParser.CoerceLimit: a JSON `true` limit is treated as not an int. Python's `isinstance(True, int)` accepts it as limit 1.
- QueryParser.CoerceLimit: the limit on the number of digits that `int()` reads (4300 by default since Python 3.11) is not modelled. A longer digit string would raise ValueError; here it is read.
- QueryParser.LimitToken: the same `int()` digit limit is not modelled. The heuristic catches that ValueError, so a longer token would give no limit; here it is read.
- QueryParser.AmountValue: `float(amount)` is modelled as the exact value of the digit string, not the nearest double.
- Character classes, `lower()`, `capitalize()`, `isdigit()` and `strip()`:
  - they are modelled for ASCII and Latin-1, including the superscript digits that `isdigit()` accepts and the title case of ß, ÿ and µ;
  - the other Unicode letters, digits and case pairs that Python knows are not.
- `str()` of floats, lists and dicts, and `json.dumps`/`json.loads`, are supplied by the `Runtime` parameter. Their exact text is not re-derived.
- EntityResolver.RerankWithCohere: a result index that is not an integer, and a relevance score that `float()` rejects, are not modelled. Cohere's reply is already typed.
- EntityResolver.SearchChroma: `get_or_create_collection` and `query` failures are one `SearchFailed` reply.
- `format_for_whatsapp` and `format_for_web` take the query parameters. `format_for_whatsapp` ignores them, and so does the model.

## Findings

| source | as written | input that shows it | evidently intended | confidence | as-written member | corrected member |
|---|---|---|---|---|---|---|
| backend/app/core/query_parser.py:86-92 | A model answer whose entity is truthy but blank, or not a string, reaches `QueryParams`, and `parse` raises ValueError or AttributeError. | The model answers `{"entity": " "}` | Such an answer is unusable and falls back to the heuristic. The class docstring (query_parser.py:61-62) promises this fallback for invalid model responses. | not executed | QueryParser.AsWrittenRaisesOnBlankEntity | QueryParser.Parse |

/** `ResultFormatter` (backend/app/core/formatter.py): the WhatsApp text and the web
    payload built from the rows of a search. */
module Formatter {
  import opened Values
  import opened Scan
  import opened QueryParser

  // ---------------------------------------------------------------- one record

  /** Python's `str.upper()` on one character, for the Latin-1 letters whose upper case is
      in Latin-1. */
  function UpperChar(c: char): char {
    if 'a' <= c <= 'z' || ('\U{e0}' <= c <= '\U{fe}' && c != '\U{f7}') then (c as int - 32) as char
    else c
  }

  /** The title case of one character, which `str.capitalize()` gives the first one. On
      Latin-1 it is the upper case, except for the sharp s, which becomes "Ss", and for
      y with diaeresis and the micro sign, whose capitals lie outside Latin-1. */
  function TitleCase(c: char): (t: string)
    ensures |t| == 1 || c == '\U{df}'
  {
    if c == '\U{df}' then "Ss"
    else if c == '\U{ff}' then ['\U{178}']
    else if c == '\U{b5}' then ['\U{39c}']
    else [UpperChar(c)]
  }

  /** `str.capitalize()`: the first character title case, the rest lower case. */
  function Capitalize(s: string): string {
    if s == [] then [] else TitleCase(s[0]) + Lower(s[1..])
  }

  /** The fields a summary shows, in the order it shows them. */
  const SummaryKeys: seq<string> := ["buyer", "supplier", "amount", "status"]

  /** A word in lower-case ASCII letters is capitalised by upper-casing its first letter. */
  lemma CapitalizeWord(w: string)
    requires w != [] && forall k :: 0 <= k < |w| ==> 'a' <= w[k] <= 'z'
    ensures Capitalize(w) == [(w[0] as int - 32) as char] + w[1..]
  {
    assert Lower(w[1..]) == w[1..];
  }

  /** `key in record and record[key]`. */
  predicate Qualifies(record: Entries, key: string) {
    HasKey(record, key) && Truthy(Lookup(record, key).value)
  }

  /** `f"{key.capitalize()}: {record[key]}"`. */
  function Piece(rt: Runtime, record: Entries, key: string): string
    requires HasKey(record, key)
  {
    Capitalize(key) + ": " + Text(rt, Lookup(record, key).value)
  }

  /** The piece a field contributes: one when it qualifies, none otherwise. */
  function PieceFor(rt: Runtime, record: Entries, key: string): seq<string> {
    if Qualifies(record, key) then [Piece(rt, record, key)] else []
  }

  /** The pieces collected for `keys`, in their order. */
  function Pieces(rt: Runtime, record: Entries, keys: seq<string>): seq<string> {
    if keys == [] then []
    else Pieces(rt, record, keys[..|keys| - 1]) + PieceFor(rt, record, keys[|keys| - 1])
  }

  /** No pieces exactly when none of the keys qualifies. */
  lemma {:induction false} PiecesEmptyIff(rt: Runtime, record: Entries, keys: seq<string>)
    ensures Pieces(rt, record, keys) == [] <==> forall k :: 0 <= k < |keys| ==> !Qualifies(record, keys[k])
  {
    if keys != [] {
      var init, last := keys[..|keys| - 1], keys[|keys| - 1];
      PiecesEmptyIff(rt, record, init);
      assert Pieces(rt, record, keys) == Pieces(rt, record, init) + PieceFor(rt, record, last);
      assert (forall k :: 0 <= k < |keys| ==> !Qualifies(record, keys[k]))
         <==> (forall k :: 0 <= k < |init| ==> !Qualifies(record, init[k])) && !Qualifies(record, last);
    }
  }

  /** The summary shows buyer, supplier, amount and status, in that order, each exactly
      when it qualifies. */
  lemma SummaryPiecesInOrder(rt: Runtime, record: Entries)
    ensures Pieces(rt, record, SummaryKeys)
         == PieceFor(rt, record, "buyer") + PieceFor(rt, record, "supplier")
          + PieceFor(rt, record, "amount") + PieceFor(rt, record, "status")
  {
    PiecesOfFour(rt, record, "buyer", "supplier", "amount", "status");
  }

  lemma PiecesOfFour(rt: Runtime, record: Entries, a: string, b: string, c: string, d: string)
    ensures Pieces(rt, record, [a, b, c, d])
         == PieceFor(rt, record, a) + PieceFor(rt, record, b) + PieceFor(rt, record, c) + PieceFor(rt, record, d)
  {
    assert [a, b, c, d][..3] == [a, b, c];
    assert [a, b, c][..2] == [a, b];
    assert [a, b][..1] == [a];
    assert [a][..0] == [];
    assert Pieces(rt, record, [a]) == PieceFor(rt, record, a);
    assert Pieces(rt, record, [a, b]) == PieceFor(rt, record, a) + PieceFor(rt, record, b);
    assert Pieces(rt, record, [a, b, c]) == Pieces(rt, record, [a, b]) + PieceFor(rt, record, c);
  }

  /** `_summarise_record`: the pieces joined with " | ", or the record's JSON when there
      are none. */
  function Summary(rt: Runtime, record: Entries): string {
    var pieces := Pieces(rt, record, SummaryKeys);
    if pieces == [] then rt.dumpsUnicode(Object(record)) else Join(" | ", pieces)
  }

  /** A record whose only field is a non-empty buyer name is summarised as "Buyer: " and
      the name. */
  lemma BuyerSummary(rt: Runtime, name: string)
    requires name != []
    ensures Summary(rt, [("buyer", Str(name))]) == "Buyer: " + name
  {
    var record := [("buyer", Str(name))];
    SummaryPiecesInOrder(rt, record);
    assert Lookup(record, "buyer") == Some(Str(name));
    assert "supplier"[0] != "buyer"[0] && "amount"[0] != "buyer"[0] && "status"[0] != "buyer"[0];
    assert !HasKey(record, "supplier") && !HasKey(record, "amount") && !HasKey(record, "status");
    CapitalizeWord("buyer");
    assert Capitalize("buyer") == "Buyer";
  }

  /** The summary falls back to the JSON dump exactly when no summary field qualifies. */
  lemma SummaryFallsBack(rt: Runtime, record: Entries)
    ensures (forall k :: 0 <= k < |SummaryKeys| ==> !Qualifies(record, SummaryKeys[k])) ==>
              Summary(rt, record) == rt.dumpsUnicode(Object(record))
    ensures (exists k :: 0 <= k < |SummaryKeys| && Qualifies(record, SummaryKeys[k])) ==>
              Pieces(rt, record, SummaryKeys) != [] &&
              Summary(rt, record) == Join(" | ", Pieces(rt, record, SummaryKeys))
  {
    PiecesEmptyIff(rt, record, SummaryKeys);
  }

  /** The loop of `_summarise_record` over the fields `keys`. */
  method CollectPieces(rt: Runtime, record: Entries, keys: seq<string>) returns (pieces: seq<string>)
    ensures pieces == Pieces(rt, record, keys)
  {
    pieces := [];
    for i := 0 to |keys|
      invariant pieces == Pieces(rt, record, keys[..i])
    {
      var key := keys[i];
      if Qualifies(record, key) {
        pieces := pieces + [Piece(rt, record, key)];
      }
      assert keys[..i + 1][..i] == keys[..i];
    }
    assert keys[..|keys|] == keys;
  }

  method SummariseRecord(rt: Runtime, record: Entries) returns (summary: string)
    ensures summary == Summary(rt, record)
  {
    var pieces := CollectPieces(rt, record, SummaryKeys);
    if pieces == [] {
      pieces := pieces + [rt.dumpsUnicode(Object(record))];
    }
    summary := Join(" | ", pieces);
  }

  // ---------------------------------------------------------------- WhatsApp

  const NoResults: string := "No se encontraron resultados para tu b" + "\U{fa}squeda."
  const Header: string := "Resultados para tu consulta:"

  /** How many records the message lists: at most five. */
  function Shown(n: nat): nat {
    if n < 5 then n else 5
  }

  /** The line for the record at index `i`, numbered from 1. */
  function Numbered(rt: Runtime, i: nat, record: Entries): string {
    NatText(i + 1) + ". " + Summary(rt, record)
  }

  /** The closing line that counts the records left out. */
  function Trailer(n: nat): string
    requires n > 5
  {
    "Y " + NatText(n - 5) + " resultados m\U{e1}s\U{2026}"
  }

  /** The lines of a message for a non-empty result. */
  function Lines(rt: Runtime, records: seq<Entries>): seq<string> {
    var n := |records|;
    [Header] + seq(Shown(n), i requires 0 <= i < Shown(n) => Numbered(rt, i, records[i]))
      + (if n > 5 then [Trailer(n)] else [])
  }

  /** `format_for_whatsapp`. */
  function WhatsApp(rt: Runtime, records: seq<Entries>): string {
    if records == [] then NoResults else Join("\n", Lines(rt, records))
  }

  /** A join starts with its first part. */
  lemma {:induction false} JoinStartsWith(sep: string, parts: seq<string>)
    requires parts != []
    ensures |parts[0]| <= |Join(sep, parts)| && Join(sep, parts)[..|parts[0]|] == parts[0]
  {
    if |parts| > 1 {
      var rest := Join(sep, parts[1..]);
      assert Join(sep, parts) == parts[0] + (sep + rest);
    }
  }

  /** The message says there are no results exactly when there are none; otherwise it
      opens with the header. */
  lemma WhatsAppNoResultsIff(rt: Runtime, records: seq<Entries>)
    ensures records == [] <==> WhatsApp(rt, records) == NoResults
    ensures records != [] ==> |Header| <= |WhatsApp(rt, records)| && WhatsApp(rt, records)[..|Header|] == Header
  {
    if records != [] {
      var lines := Lines(rt, records);
      JoinStartsWith("\n", lines);
      assert WhatsApp(rt, records)[..|Header|][0] == Header[0];
      assert NoResults[0] != Header[0];
    }
  }

  /** A non-empty result gives at most seven lines: the header, one numbered line for
      each of the first five records, and one line counting the rest exactly when there
      are more than five. */
  lemma LinesShape(rt: Runtime, records: seq<Entries>)
    ensures var lines := Lines(rt, records);
            var n := |records|;
            && |lines| == 1 + Shown(n) + (if n > 5 then 1 else 0)
            && |lines| <= 7
            && (n >= 5 ==> |lines| - 1 - (if n > 5 then 1 else 0) == 5)
            && lines[0] == Header
            && (forall i :: 0 <= i < Shown(n) ==> lines[i + 1] == NatText(i + 1) + ". " + Summary(rt, records[i]))
            && (n > 5 ==> lines[|lines| - 1] == Trailer(n))
  {
  }

  /** The loop of `format_for_whatsapp`: the header, then one numbered summary for each
      record of `shown`. */
  method NumberSummaries(rt: Runtime, shown: seq<Entries>) returns (lines: seq<string>)
    ensures lines == [Header] + seq(|shown|, i requires 0 <= i < |shown| => Numbered(rt, i, shown[i]))
  {
    lines := [Header];
    for idx := 0 to |shown|
      invariant lines == [Header] + seq(idx, i requires 0 <= i < idx => Numbered(rt, i, shown[i]))
    {
      var summary := SummariseRecord(rt, shown[idx]);
      ghost var line := Numbered(rt, idx, shown[idx]);
      assert NatText(idx + 1) + ". " + summary == line;
      assert seq(idx + 1, i requires 0 <= i < idx + 1 => Numbered(rt, i, shown[i]))
          == seq(idx, i requires 0 <= i < idx => Numbered(rt, i, shown[i])) + [line];
      lines := lines + [NatText(idx + 1) + ". " + summary];
    }
  }

  method FormatForWhatsapp(rt: Runtime, records: seq<Entries>, params: QueryParams) returns (text: string)
    ensures text == WhatsApp(rt, records)
  {
    if records == [] {
      return NoResults;
    }
    var lines := NumberSummaries(rt, records[..Shown(|records|)]);
    ghost var numbered := lines;
    assert numbered == Lines(rt, records)[..1 + Shown(|records|)];
    if |records| > 5 {
      lines := lines + ["Y " + NatText(|records| - 5) + " resultados m\U{e1}s\U{2026}"];
    }
    assert lines == Lines(rt, records);
    text := Join("\n", lines);
  }

  // ---------------------------------------------------------------- web

  /** Looking up each key of a three-entry dict with distinct keys. */
  lemma LookupThree(a: string, b: string, c: string, va: Value, vb: Value, vc: Value)
    requires a != b && a != c && b != c
    ensures var d := [(a, va), (b, vb), (c, vc)];
            DistinctKeys(d) && Lookup(d, a) == Some(va) && Lookup(d, b) == Some(vb) && Lookup(d, c) == Some(vc)
  {
    var d := [(a, va), (b, vb), (c, vc)];
    assert DistinctKeys(d);
    assert d[0] == (a, va) && d[1] == (b, vb) && d[2] == (c, vc);
  }

  /** `format_for_web`: the query as a dict, the number of records and the records
      themselves. */
  function FormatForWeb(records: seq<Entries>, params: QueryParams): Value {
    var results := seq(|records|, k requires 0 <= k < |records| => Object(records[k]));
    Object([("query", AsDict(params)), ("count", Int(|records|)), ("results", List(results))])
  }

  /** The payload holds the query as `as_dict()` gives it, a count equal to the number of
      records, and the records unchanged and in order. */
  lemma WebPayload(records: seq<Entries>, params: QueryParams)
    ensures var r := FormatForWeb(records, params);
            && r.Object? && DistinctKeys(r.entries)
            && Lookup(r.entries, "query") == Some(AsDict(params))
            && Lookup(r.entries, "count") == Some(Int(|records|))
            && Lookup(r.entries, "results").Some? && Lookup(r.entries, "results").value.List?
            && var results := Lookup(r.entries, "results").value.items;
               |results| == |records| && forall k :: 0 <= k < |records| ==> results[k] == Object(records[k])
  {
    assert "query"[0] != "count"[0] && "query"[0] != "results"[0] && "count"[0] != "results"[0];
    var results := seq(|records|, k requires 0 <= k < |records| => Object(records[k]));
    LookupThree("query", "count", "results", AsDict(params), Int(|records|), List(results));
  }
}

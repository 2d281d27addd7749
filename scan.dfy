/** The regular expressions of the keyword heuristic, as scanners over strings.
    `re.search` tries each start position from the left and returns the first one
    where the pattern matches; each matcher below decides one start position,
    with the pattern's backtracking worked out by hand. Character classes follow
    Python's definitions on ASCII and Latin-1. */
module Scan {
  import opened Values

  /** Python's `str.lower()` on one character. */
  function LowerChar(c: char): char {
    if 'A' <= c <= 'Z' || ('\U{c0}' <= c <= '\U{de}' && c != '\U{d7}') then (c as int + 32) as char
    else c
  }

  /** Python's `str.lower()`. */
  function Lower(s: string): (r: string)
    ensures |r| == |s| && forall k :: 0 <= k < |s| ==> r[k] == LowerChar(s[k])
  {
    if s == [] then [] else [LowerChar(s[0])] + Lower(s[1..])
  }

  /** `a` lowers to `a'`, character by character. */
  predicate LowersTo(a: string, a': string) {
    |a| == |a'| && forall k :: 0 <= k < |a| ==> LowerChar(a[k]) == a'[k]
  }

  /** Lowering two pieces one after the other lowers their concatenation. */
  lemma LowersToAppend(a: string, b: string, a': string, b': string)
    requires LowersTo(a, a') && LowersTo(b, b')
    ensures LowersTo(a + b, a' + b')
  {
    forall k | |a| <= k < |a| + |b|
      ensures LowerChar((a + b)[k]) == (a' + b')[k]
    {
      assert (a + b)[k] == b[k - |a|] && (a' + b')[k] == b'[k - |a|];
    }
  }

  /** Lowering a text made of four pieces lowers each piece. */
  lemma LowerFour(a: string, b: string, c: string, d: string, a': string, b': string, c': string, d': string)
    requires LowersTo(a, a') && LowersTo(b, b') && LowersTo(c, c') && LowersTo(d, d')
    ensures Lower(a + b + c + d) == a' + b' + c' + d'
  {
    LowersToAppend(a, b, a', b');
    LowersToAppend(a + b, c, a' + b', c');
    LowersToAppend(a + b + c, d, a' + b' + c', d');
    var s, t := a + b + c + d, a' + b' + c' + d';
    assert forall k :: 0 <= k < |s| ==> Lower(s)[k] == t[k];
  }

  /** `\w`: letters, digits, numeric characters and the underscore. */
  predicate IsWordChar(c: char) {
    || 'a' <= c <= 'z' || 'A' <= c <= 'Z' || IsDigit(c) || c == '_'
    || c == '\U{aa}' || c == '\U{b2}' || c == '\U{b3}' || c == '\U{b5}' || c == '\U{b9}' || c == '\U{ba}'
    || '\U{bc}' <= c <= '\U{be}'
    || ('\U{c0}' <= c <= '\U{ff}' && c != '\U{d7}' && c != '\U{f7}')
  }

  /** `[\w\sáéíóúñ.&-]`, the characters of a buyer or supplier name. */
  predicate IsNameChar(c: char) {
    IsWordChar(c) || IsSpace(c) || c == '.' || c == '&' || c == '-'
  }

  /** `[\d.,]`, the characters of an amount. */
  predicate IsAmountChar(c: char) {
    IsDigit(c) || c == '.' || c == ','
  }

  /** The lower-case keyword `kw` occurs at `i`, compared as `re.IGNORECASE` does. */
  predicate KeywordAt(s: string, kw: string, i: nat) {
    i + |kw| <= |s| && forall k :: 0 <= k < |kw| ==> LowerChar(s[i + k]) == kw[k]
  }

  /** The span of a capturing group. */
  datatype Span = Span(start: nat, end: nat)

  predicate SpanIn(s: string, sp: Span) {
    sp.start < sp.end <= |s|
  }

  /** The text a match captured. */
  function Group(s: string, sp: Span): (g: string)
    requires SpanIn(s, sp)
    ensures |g| == sp.end - sp.start && forall k :: 0 <= k < |g| ==> g[k] == s[sp.start + k]
  {
    s[sp.start..sp.end]
  }

  function OrElse(a: Option<Span>, b: Option<Span>): Option<Span> {
    if a.Some? then a else b
  }

  /** The five patterns of the heuristic. */
  datatype Pattern =
    | Year      // (19|20)\d{2}                          on the lowered text
    | Buyer     // entidad\s+([\w\sáéíóúñ.&-]+)           on the text, ignoring case
    | Supplier  // proveedor(?:a)?\s+([\w\sáéíóúñ.&-]+)   on the text, ignoring case
    | Amount    // mayor(?: a)?\s+\$?(\d+[\d.,]*)          on the lowered text
    | Limit     // (?:top|primer[oa]s?)\s+(\d+)            on the lowered text

  /** A year token `19xx` or `20xx` at `i`. */
  predicate YearAt(s: string, i: nat) {
    && i + 4 <= |s|
    && ((s[i] == '1' && s[i + 1] == '9') || (s[i] == '2' && s[i + 1] == '0'))
    && IsDigit(s[i + 2]) && IsDigit(s[i + 3])
  }

  /** `\s+([\w\sáéíóúñ.&-]+)` from `j`. The class contains the spaces, so when no name
      character follows the spaces, `\s+` gives its last space back to the group. */
  function NameAfter(s: string, j: nat): (r: Option<Span>)
    requires j <= |s|
    ensures r.Some? ==> j < r.value.start && GroupShape(Buyer, s, r.value)
  {
    var w := SkipWhile(s, j, IsSpace);
    if w == j then None
    else if w < |s| && IsNameChar(s[w]) then Some(Span(w, SkipWhile(s, w, IsNameChar)))
    else if w - j >= 2 then Some(Span(w - 1, w))
    else None
  }

  /** `\s+\$?(\d+[\d.,]*)` from `j`. */
  function AmountAfter(s: string, j: nat): (r: Option<Span>)
    requires j <= |s|
    ensures r.Some? ==> j < r.value.start && GroupShape(Amount, s, r.value)
  {
    var w := SkipWhile(s, j, IsSpace);
    if w == j then None
    else if w + 1 < |s| && s[w] == '$' && IsDigit(s[w + 1]) then Some(Span(w + 1, SkipWhile(s, w + 1, IsAmountChar)))
    else if w < |s| && IsDigit(s[w]) then Some(Span(w, SkipWhile(s, w, IsAmountChar)))
    else None
  }

  /** `\s+(\d+)` from `j`. */
  function DigitsAfter(s: string, j: nat): (r: Option<Span>)
    requires j <= |s|
    ensures r.Some? ==> j < r.value.start && GroupShape(Limit, s, r.value)
  {
    var w := SkipWhile(s, j, IsSpace);
    if w > j && w < |s| && IsDigit(s[w]) then Some(Span(w, SkipWhile(s, w, IsDigit))) else None
  }

  /** What a group of pattern `p` consists of. */
  predicate GroupShape(p: Pattern, s: string, sp: Span) {
    && SpanIn(s, sp)
    && match p
       case Year => sp.end == sp.start + 4 && YearAt(s, sp.start)
       case Buyer => forall k :: sp.start <= k < sp.end ==> IsNameChar(s[k])
       case Supplier => forall k :: sp.start <= k < sp.end ==> IsNameChar(s[k])
       case Amount => IsDigit(s[sp.start]) && forall k :: sp.start <= k < sp.end ==> IsAmountChar(s[k])
       case Limit => forall k :: sp.start <= k < sp.end ==> IsDigit(s[k])
  }

  /** Does `p` match at start position `i`, and with which group? */
  function MatchAt(p: Pattern, s: string, i: nat): (r: Option<Span>)
    requires i <= |s|
    ensures r.Some? ==> i <= r.value.start && GroupShape(p, s, r.value)
  {
    match p
    case Year =>
      if YearAt(s, i) then Some(Span(i, i + 4)) else None
    case Buyer =>
      if KeywordAt(s, "entidad", i) then NameAfter(s, i + 7) else None
    case Supplier =>
      if !KeywordAt(s, "proveedor", i) then None
      else if i + 9 < |s| && LowerChar(s[i + 9]) == 'a' then OrElse(NameAfter(s, i + 10), NameAfter(s, i + 9))
      else NameAfter(s, i + 9)
    case Amount =>
      if !OccursAt(s, "mayor", i) then None
      else if OccursAt(s, " a", i + 5) then OrElse(AmountAfter(s, i + 7), AmountAfter(s, i + 5))
      else AmountAfter(s, i + 5)
    case Limit =>
      if OccursAt(s, "top", i) then DigitsAfter(s, i + 3)
      else if OccursAt(s, "primer", i) && i + 6 < |s| && (s[i + 6] == 'o' || s[i + 6] == 'a') then
        if i + 7 < |s| && s[i + 7] == 's' then OrElse(DigitsAfter(s, i + 8), DigitsAfter(s, i + 7))
        else DigitsAfter(s, i + 7)
      else None
  }

  /** A successful search: where the match starts and the group it captured. */
  datatype Found = Found(at: nat, group: Span)

  /** `re.search(p, s[i..])`: the leftmost start position at or after `i` where `p` matches. */
  function Search(p: Pattern, s: string, i: nat): (r: Option<Found>)
    requires i <= |s|
    ensures r.Some? ==> i <= r.value.at <= |s| && MatchAt(p, s, r.value.at) == Some(r.value.group)
    ensures r.Some? ==> forall j :: i <= j < r.value.at ==> MatchAt(p, s, j).None?
    ensures r.None? <==> forall j :: i <= j <= |s| ==> MatchAt(p, s, j).None?
    decreases |s| - i
  {
    var m := MatchAt(p, s, i);
    if m.Some? then Some(Found(i, m.value))
    else if i == |s| then None
    else Search(p, s, i + 1)
  }

  /** The search stops at the first position where the pattern matches. */
  lemma SearchFindsFirst(p: Pattern, s: string, k: nat, g: Span)
    requires k <= |s| && MatchAt(p, s, k) == Some(g)
    requires forall j :: 0 <= j < k ==> MatchAt(p, s, j).None?
    ensures Search(p, s, 0) == Some(Found(k, g))
  {
    var r := Search(p, s, 0);
    assert r.Some?;
    assert r.value.at == k;
  }

  /** No year token starts before `n` when neither '1' nor '2' occurs there. */
  lemma NoYearBefore(s: string, n: nat)
    requires n <= |s| && '1' !in s[..n] && '2' !in s[..n]
    ensures forall j :: 0 <= j < n ==> MatchAt(Year, s, j).None?
  {
    forall j | 0 <= j < n
      ensures !YearAt(s, j)
    {
      assert s[..n][j] == s[j];
    }
  }

  /** A keyword whose `k`-th letter is missing from the positions it would occupy does
      not start before `n`. */
  lemma NoKeywordBefore(s: string, kw: string, k: nat, n: nat)
    requires k < |kw| && n + k <= |s|
    requires forall m :: k <= m < n + k ==> LowerChar(s[m]) != kw[k]
    ensures forall j :: 0 <= j < n ==> !KeywordAt(s, kw, j)
  {
    forall j | 0 <= j < n
      ensures !KeywordAt(s, kw, j)
    {
      assert LowerChar(s[j + k]) != kw[k];
    }
  }

  /** No "proveedor" starts before `n` when no 'v' lies where its fourth letter would. */
  lemma NoSupplierBefore(s: string, n: nat)
    requires n + 3 <= |s|
    requires forall m :: 3 <= m < n + 3 ==> LowerChar(s[m]) != 'v'
    ensures forall j :: 0 <= j < n ==> MatchAt(Supplier, s, j).None?
  {
    NoKeywordBefore(s, "proveedor", 3, n);
  }

  /** "proveedor", one space and a name running to the end: the name is the group. */
  lemma SupplierMatch(s: string, i: nat)
    requires KeywordAt(s, "proveedor", i) && i + 10 < |s| && s[i + 9] == ' ' && !IsSpace(s[i + 10])
    requires forall k :: i + 10 <= k < |s| ==> IsNameChar(s[k])
    ensures MatchAt(Supplier, s, i) == Some(Span(i + 10, |s|))
  {
    assert SkipWhile(s, i + 9, IsSpace) == i + 10;
    assert SkipWhile(s, i + 10, IsNameChar) == |s|;
    assert LowerChar(s[i + 9]) != 'a';
    assert NameAfter(s, i + 9) == Some(Span(i + 10, |s|));
  }

  /** `re.sub(r"(?:\b(?:19|20)\d{2})$", "", s)`: drop a year token that ends the
      string and starts a word. */
  function DropTrailingYear(s: string): (r: string)
    ensures r == s || (|r| == |s| - 4 && r == s[..|r|] && YearAt(s, |r|))
    ensures r != s <==> |s| >= 4 && YearAt(s, |s| - 4) && (|s| == 4 || !IsWordChar(s[|s| - 5]))
  {
    var n := |s|;
    if n >= 4 && YearAt(s, n - 4) && (n == 4 || !IsWordChar(s[n - 5])) then s[..n - 4] else s
  }

  predicate IsNameTrim(c: char) {
    c == ' ' || c == ',' || c == '.' || c == '-'
  }

  /** The supplier name kept from a captured group: stripped, without a trailing year,
      stripped of " ,.-". What remains is one piece of the stripped group: before it only
      " ,.-", after it only " ,.-" and possibly a trailing year token. */
  function SupplierName(group: string): (r: string)
    ensures r != [] ==> !IsNameTrim(r[0]) && !IsNameTrim(r[|r| - 1])
    ensures exists i :: IsStripOf(DropTrailingYear(Strip(group)), r, i, IsNameTrim)
  {
    StripBy(DropTrailingYear(Strip(group)), IsNameTrim)
  }
}

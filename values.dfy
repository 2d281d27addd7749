/** Python values as the pipeline sees them: JSON-like data, dictionaries that keep
    insertion order, truthiness, `str()`, whitespace stripping and decimal text. */
module Values {

  datatype Option<+T> = None | Some(value: T) {
    function GetOr(default: T): T {
      match this
      case Some(v) => v
      case None => default
    }
  }

  /** The Python exceptions the core can raise. */
  datatype Failure =
    | ValueError        // QueryParams validation
    | AttributeError    // a method called on a value of the wrong type
    | TypeError         // str.join over a non-string, QueryParams(**d) with a bad key set
    | JsonDecodeError   // json.loads of a cached value that is not JSON
    | RemoteError(reason: string)  // the Socrata call's own exception, re-raised

  datatype Result<+T> = Ok(value: T) | Err(error: Failure)

  /** A Python value of the kinds that JSON, Chroma metadata and Socrata rows carry.
      A dict is its entries in insertion order. */
  datatype Value =
    | Null
    | Bool(b: bool)
    | Int(i: int)
    | Float(r: real)
    | Str(s: string)
    | List(items: seq<Value>)
    | Object(entries: Entries)

  type Entries = seq<(string, Value)>

  /** Python's own text conversions that this model does not re-implement. */
  datatype Runtime = Runtime(
    show: Value -> string,          // str() of a float, a list or a dict
    dumps: Value -> string,         // json.dumps(v)
    dumpsUnicode: Value -> string,  // json.dumps(v, ensure_ascii=False)
    loads: string -> Option<Value>  // json.loads(s); None for JSONDecodeError
  )

  // ---------------------------------------------------------------- dicts

  function Keys(d: Entries): (ks: seq<string>)
    ensures |ks| == |d| && forall k :: 0 <= k < |d| ==> ks[k] == d[k].0
  {
    seq(|d|, k requires 0 <= k < |d| => d[k].0)
  }

  predicate DistinctKeys(d: Entries) {
    forall i, j :: 0 <= i < j < |d| ==> d[i].0 != d[j].0
  }

  /** Every key of `d` is one of `keys`. */
  predicate KeysIn(d: Entries, keys: set<string>) {
    forall j :: 0 <= j < |d| ==> d[j].0 in keys
  }

  predicate HasKey(d: Entries, key: string) {
    exists k :: 0 <= k < |d| && d[k].0 == key
  }

  /** `d.get(key)`: the value stored under `key`. */
  function Lookup(d: Entries, key: string): (r: Option<Value>)
    ensures r.None? <==> !HasKey(d, key)
    ensures r.Some? ==> exists k :: 0 <= k < |d| && d[k] == (key, r.value)
    ensures DistinctKeys(d) ==> forall k :: 0 <= k < |d| && d[k].0 == key ==> r == Some(d[k].1)
  {
    if d == [] then None
    else if d[0].0 == key then Some(d[0].1)
    else
      var r := Lookup(d[1..], key);
      assert r.Some? ==> exists k :: 1 <= k < |d| && d[k] == (key, r.value) by {
        if r.Some? {
          var k :| 0 <= k < |d[1..]| && d[1..][k] == (key, r.value);
          assert d[k + 1] == (key, r.value);
        }
      }
      assert HasKey(d[1..], key) ==> HasKey(d, key) by {
        if HasKey(d[1..], key) {
          var k :| 0 <= k < |d[1..]| && d[1..][k].0 == key;
          assert d[k + 1].0 == key;
        }
      }
      assert HasKey(d, key) ==> HasKey(d[1..], key) by {
        if HasKey(d, key) {
          var k :| 0 <= k < |d| && d[k].0 == key;
          assert d[1..][k - 1].0 == key;
        }
      }
      r
  }

  /** `d[key] = v`: an existing key keeps its place, a new key goes last. */
  function Put(d: Entries, key: string, v: Value): (r: Entries)
    ensures Lookup(r, key) == Some(v)
    ensures HasKey(d, key) ==> Keys(r) == Keys(d)
    ensures !HasKey(d, key) ==> r == d + [(key, v)]
  {
    if HasKey(d, key) then Replace(d, key, v)
    else
      var r := d + [(key, v)];
      assert r[|d|] == (key, v);
      r
  }

  /** Looking up a key after appending an entry. */
  lemma {:induction false} LookupAppend(d: Entries, k: string, v: Value, key: string)
    ensures Lookup(d + [(k, v)], key) ==
            if HasKey(d, key) then Lookup(d, key) else if k == key then Some(v) else None
  {
    var e := d + [(k, v)];
    if d == [] {
      assert e == [(k, v)];
    } else if d[0].0 != key {
      assert e[1..] == d[1..] + [(k, v)];
      LookupAppend(d[1..], k, v, key);
      assert HasKey(d, key) <==> HasKey(d[1..], key) by {
        if HasKey(d, key) {
          var j :| 0 <= j < |d| && d[j].0 == key;
          assert d[1..][j - 1].0 == key;
        }
        if HasKey(d[1..], key) {
          var j :| 0 <= j < |d[1..]| && d[1..][j].0 == key;
          assert d[j + 1].0 == key;
        }
      }
    } else {
      assert e[0] == d[0];
    }
  }

  /** Appending an entry under a new key keeps the keys distinct. */
  lemma AppendDistinct(d: Entries, k: string, v: Value)
    requires DistinctKeys(d) && !HasKey(d, k)
    ensures DistinctKeys(d + [(k, v)])
  {
    var e := d + [(k, v)];
    forall i, j | 0 <= i < j < |e|
      ensures e[i].0 != e[j].0
    {
      if j == |d| {
        assert e[i] == d[i];
      } else {
        assert e[i] == d[i] && e[j] == d[j];
      }
    }
  }

  /** Assigning a new key appends it and leaves every other key's value alone. */
  lemma FreshPut(d: Entries, k: string, v: Value)
    requires DistinctKeys(d) && !HasKey(d, k)
    ensures Put(d, k, v) == d + [(k, v)] && DistinctKeys(Put(d, k, v))
    ensures forall key :: key != k ==> Lookup(Put(d, k, v), key) == Lookup(d, key)
  {
    AppendDistinct(d, k, v);
    forall key | key != k
      ensures Lookup(Put(d, k, v), key) == Lookup(d, key)
    {
      LookupAppend(d, k, v, key);
    }
  }

  /** `if found: d[key] = found`. */
  function PutFound(d: Entries, key: string, found: Option<Value>): Entries {
    if found.Some? then Put(d, key, found.value) else d
  }

  /** Setting a key that `d` does not hold yet, when there is a value for it: the key holds
      that value afterwards, the keys stay distinct, and every other key is left alone. */
  lemma PutFoundFresh(d: Entries, key: string, found: Option<Value>, keys: set<string>)
    requires DistinctKeys(d) && KeysIn(d, keys) && key !in keys
    ensures var r := PutFound(d, key, found);
            && DistinctKeys(r)
            && KeysIn(r, keys + {key})
            && Lookup(r, key) == found
            && forall other :: other != key ==> Lookup(r, other) == Lookup(d, other)
  {
    if found.Some? {
      FreshPut(d, key, found.value);
      var r := d + [(key, found.value)];
      assert forall j :: 0 <= j < |r| ==> r[j].0 in keys + {key} by {
        forall j | 0 <= j < |r|
          ensures r[j].0 in keys + {key}
        {
          if j < |d| { assert r[j] == d[j]; }
        }
      }
    }
  }

  /** `for key, found in assignments: if found: d[key] = found`. */
  function PutAll(d: Entries, assignments: seq<(string, Option<Value>)>): Entries
    decreases |assignments|
  {
    if assignments == [] then d
    else PutAll(PutFound(d, assignments[0].0, assignments[0].1), assignments[1..])
  }

  function Names(assignments: seq<(string, Option<Value>)>): set<string> {
    set i | 0 <= i < |assignments| :: assignments[i].0
  }

  /** The names assigned are the first one and those of the rest. */
  lemma NamesFirst(assignments: seq<(string, Option<Value>)>)
    requires assignments != []
    ensures Names(assignments) == {assignments[0].0} + Names(assignments[1..])
  {
    var rest := assignments[1..];
    forall x | x in Names(assignments)
      ensures x in {assignments[0].0} + Names(rest)
    {
      var i :| 0 <= i < |assignments| && assignments[i].0 == x;
      if i > 0 { assert rest[i - 1] == assignments[i]; }
    }
    forall x | x in Names(rest)
      ensures x in Names(assignments)
    {
      var i :| 0 <= i < |rest| && rest[i].0 == x;
      assert assignments[i + 1] == rest[i];
    }
  }

  /** Conditional assignments of distinct new keys: each key ends up holding exactly what
      was found for it (nothing when nothing was found), the keys stay distinct, and no
      other key is touched. */
  lemma {:induction false} PutAllFresh(d: Entries, assignments: seq<(string, Option<Value>)>, keys: set<string>)
    requires DistinctKeys(d) && KeysIn(d, keys)
    requires forall i :: 0 <= i < |assignments| ==> assignments[i].0 !in keys
    requires forall i, j :: 0 <= i < j < |assignments| ==> assignments[i].0 != assignments[j].0
    ensures DistinctKeys(PutAll(d, assignments))
    ensures KeysIn(PutAll(d, assignments), keys + Names(assignments))
    ensures forall i :: 0 <= i < |assignments| ==> Lookup(PutAll(d, assignments), assignments[i].0) == assignments[i].1
    ensures forall key :: key !in Names(assignments) ==> Lookup(PutAll(d, assignments), key) == Lookup(d, key)
    decreases |assignments|
  {
    if assignments != [] {
      var (k, found) := assignments[0];
      var rest := assignments[1..];
      var e := PutFound(d, k, found);
      PutFoundFresh(d, k, found, keys);
      assert forall i :: 0 <= i < |rest| ==> rest[i].0 !in keys + {k} by {
        forall i | 0 <= i < |rest|
          ensures rest[i].0 !in keys + {k}
        {
          assert rest[i] == assignments[i + 1];
        }
      }
      PutAllFresh(e, rest, keys + {k});
      NamesFirst(assignments);
      assert keys + {k} + Names(rest) == keys + Names(assignments);
      forall i | 0 <= i < |assignments|
        ensures Lookup(PutAll(d, assignments), assignments[i].0) == assignments[i].1
      {
        if i > 0 {
          assert rest[i - 1] == assignments[i];
        }
      }
    }
  }

  /** The entries of `d` with the value of the first entry under `key` replaced. */
  function Replace(d: Entries, key: string, v: Value): (r: Entries)
    requires HasKey(d, key)
    ensures Lookup(r, key) == Some(v)
    ensures Keys(r) == Keys(d)
  {
    if d[0].0 == key then [(key, v)] + d[1..]
    else
      assert HasKey(d[1..], key) by {
        var k :| 0 <= k < |d| && d[k].0 == key;
        assert d[1..][k - 1].0 == key;
      }
      var t := Replace(d[1..], key, v);
      var r := [d[0]] + t;
      assert r[1..] == t;
      assert Keys(r) == Keys(d) by {
        forall k | 0 <= k < |d|
          ensures Keys(r)[k] == Keys(d)[k]
        {
          if k > 0 {
            assert r[k] == t[k - 1] && d[k] == d[1..][k - 1];
            assert Keys(t)[k - 1] == Keys(d[1..])[k - 1];
          }
        }
      }
      r
  }

  // ---------------------------------------------------------------- truthiness and str()

  /** Python's `bool(v)`. */
  predicate Truthy(v: Value) {
    match v
    case Null => false
    case Bool(b) => b
    case Int(i) => i != 0
    case Float(r) => r != 0.0
    case Str(s) => s != []
    case List(items) => items != []
    case Object(entries) => entries != []
  }

  /** Python's `str(v)`; a float or a container is left to the runtime. */
  function Text(rt: Runtime, v: Value): string {
    match v
    case Null => "None"
    case Bool(b) => if b then "True" else "False"
    case Int(i) => IntText(i)
    case Str(s) => s
    case _ => rt.show(v)
  }

  // ---------------------------------------------------------------- decimal text

  /** A decimal digit, which `int()` and `\d` accept. */
  predicate IsDigit(c: char) { '0' <= c <= '9' }

  /** The characters `str.isdigit()` accepts: the decimal digits and the superscripts
      one, two and three. */
  predicate IsDigitLike(c: char) {
    IsDigit(c) || c == '\U{b9}' || c == '\U{b2}' || c == '\U{b3}'
  }

  /** `s.isdigit()`: non-empty, and every character is digit-like. */
  predicate IsDigitText(s: string) {
    s != [] && forall k :: 0 <= k < |s| ==> IsDigitLike(s[k])
  }

  /** Non-empty and decimal digits only: the digit texts `int()` reads. */
  predicate IsDigits(s: string) {
    s != [] && forall k :: 0 <= k < |s| ==> IsDigit(s[k])
  }

  /** The value of one decimal digit. */
  function Digit(c: char): (d: int)
    ensures IsDigit(c) ==> 0 <= d <= 9
    ensures d == 0 <==> c == '0'
  {
    c as int - '0' as int
  }

  /** `int(s)` for a string of decimal digits. */
  function DigitsValue(s: string): (n: nat)
    requires forall k :: 0 <= k < |s| ==> IsDigit(s[k])
  {
    if s == [] then 0
    else
      assert IsDigit(s[|s| - 1]);
      DigitsValue(s[..|s| - 1]) * 10 + Digit(s[|s| - 1])
  }

  function NatText(n: nat): (s: string)
    ensures IsDigits(s)
    ensures |s| > 1 ==> s[0] != '0'
  {
    if n < 10 then [('0' as int + n) as char]
    else NatText(n / 10) + [('0' as int + n % 10) as char]
  }

  /** `str(i)` for a Python int. */
  function IntText(i: int): string {
    if i < 0 then "-" + NatText(-i) else NatText(i)
  }

  /** Reading back the decimal text of a natural number gives the number. */
  lemma {:induction false} DigitsValueOfNatText(n: nat)
    ensures DigitsValue(NatText(n)) == n
  {
    if n >= 10 {
      DigitsValueOfNatText(n / 10);
      var s := NatText(n);
      assert s[..|s| - 1] == NatText(n / 10);
    }
  }

  // ---------------------------------------------------------------- strings

  /** Python's `sub in s`. */
  predicate Contains(s: string, sub: string) {
    exists i :: 0 <= i <= |s| - |sub| && OccursAt(s, sub, i)
  }

  predicate OccursAt(s: string, sub: string, i: nat) {
    i + |sub| <= |s| && s[i..i + |sub|] == sub
  }

  /** A text built of four pieces, none holding the `k`-th character of `sub`, does not
      contain `sub`. */
  lemma LetterMissing(a: string, b: string, c: string, d: string, sub: string, k: nat)
    requires k < |sub| && sub[k] !in a && sub[k] !in b && sub[k] !in c && sub[k] !in d
    ensures !Contains(a + b + c + d, sub)
  {
    var s := a + b + c + d;
    forall i | 0 <= i <= |s| - |sub|
      ensures !OccursAt(s, sub, i)
    {
      assert s[i..i + |sub|][k] == s[i + k];
      assert s[i + k] in a || s[i + k] in b || s[i + k] in c || s[i + k] in d;
    }
  }

  /** A text contains whatever one of its pieces starts with. */
  lemma ContainsPiece(a: string, b: string, c: string, d: string, w: string)
    requires |w| <= |b| && b[..|w|] == w
    ensures Contains(a + b + c + d, w)
  {
    assert OccursAt(a + b + c + d, w, |a|);
  }

  /** `sep.join(parts)`. */
  function Join(sep: string, parts: seq<string>): string {
    if parts == [] then ""
    else if |parts| == 1 then parts[0]
    else parts[0] + sep + Join(sep, parts[1..])
  }

  /** A join of non-empty parts is empty only when there are no parts. */
  lemma {:induction false} JoinNonEmpty(sep: string, parts: seq<string>)
    requires forall k :: 0 <= k < |parts| ==> parts[k] != []
    ensures Join(sep, parts) == [] <==> parts == []
  {
    if |parts| > 1 {
      assert |Join(sep, parts)| >= |parts[0]|;
    }
  }

  /** The characters Python's `str.isspace()` accepts, which `strip()` and `\s` remove. */
  predicate IsSpace(c: char) {
    || c == ' ' || '\t' <= c <= '\r' || '\U{1c}' <= c <= '\U{1f}'
    || c == '\U{85}' || c == '\U{a0}' || c == '\U{1680}'
    || '\U{2000}' <= c <= '\U{200a}' || c == '\U{2028}' || c == '\U{2029}'
    || c == '\U{202f}' || c == '\U{205f}' || c == '\U{3000}'
  }

  /** Index of the first character at or after `i` that `drop` does not hold of. */
  function SkipWhile(s: string, i: nat, drop: char -> bool): (j: nat)
    requires i <= |s|
    ensures i <= j <= |s|
    ensures forall k :: i <= k < j ==> drop(s[k])
    ensures j < |s| ==> !drop(s[j])
    decreases |s| - i
  {
    if i == |s| || !drop(s[i]) then i else SkipWhile(s, i + 1, drop)
  }

  /** Length of `s` without its trailing characters that `drop` holds of. */
  function KeepUntil(s: string, j: nat, drop: char -> bool): (e: nat)
    requires j <= |s|
    ensures e <= j
    ensures forall k :: e <= k < j ==> drop(s[k])
    ensures e > 0 ==> !drop(s[e - 1])
  {
    if j == 0 || !drop(s[j - 1]) then j else KeepUntil(s, j - 1, drop)
  }

  /** `s.strip(chars)` where `drop` says which characters are in `chars`. */
  function StripBy(s: string, drop: char -> bool): (r: string)
    ensures |r| <= |s|
    ensures r != [] ==> !drop(r[0]) && !drop(r[|r| - 1])
    ensures exists i :: IsStripOf(s, r, i, drop)
  {
    var i := SkipWhile(s, 0, drop);
    var e := KeepUntil(s, |s|, drop);
    var r := if e <= i then [] else s[i..e];
    assert e <= i ==> forall k :: 0 <= k < |s| ==> drop(s[k]);
    assert IsStripOf(s, r, if e <= i then 0 else i, drop);
    r
  }

  /** `r` is `s[i..]` cut short, with only `drop` characters removed on either side. */
  predicate IsStripOf(s: string, r: string, i: int, drop: char -> bool) {
    && 0 <= i <= |s| - |r| && r == s[i..i + |r|]
    && (forall k :: 0 <= k < i ==> drop(s[k]))
    && (forall k :: i + |r| <= k < |s| ==> drop(s[k]))
  }

  /** When `s[i..e]` starts and ends with kept characters and only dropped ones lie
      outside it, stripping yields exactly that piece. */
  lemma StripByExact(s: string, i: nat, e: nat, drop: char -> bool)
    requires i < e <= |s| && !drop(s[i]) && !drop(s[e - 1])
    requires forall k :: 0 <= k < i ==> drop(s[k])
    requires forall k :: e <= k < |s| ==> drop(s[k])
    ensures StripBy(s, drop) == s[i..e]
  {
    var r := StripBy(s, drop);
    var i' :| IsStripOf(s, r, i', drop);
    assert r != [];
    assert s[i'] == r[0];
    assert i' == i;
    assert s[i' + |r| - 1] == r[|r| - 1];
    assert i' + |r| == e;
  }

  /** `s.strip()`. */
  function Strip(s: string): string {
    StripBy(s, IsSpace)
  }

  /** A string whose `strip()` is empty: Python's blank test. */
  predicate IsBlank(s: string) {
    forall k :: 0 <= k < |s| ==> IsSpace(s[k])
  }

  lemma StripEmptyIffBlank(s: string)
    ensures Strip(s) == [] <==> IsBlank(s)
  {
    var r := Strip(s);
    var i :| IsStripOf(s, r, i, IsSpace);
  }
}

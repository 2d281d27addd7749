/** `json.dumps(v, sort_keys=True)` writes every dict with its keys in ascending order.
    This module gives that ordering as a canonical value: the same value with every
    dict's entries sorted by key. Two dicts with the same entries, inserted in any order,
    have the same canonical value, so they serialise to the same text. */
module Canonical {
  import opened Values

  // ---------------------------------------------------------------- string order

  /** Python's `a < b` on strings: code point by code point, a proper prefix first. */
  predicate Below(a: string, b: string)
    decreases |a|
  {
    if a == [] then b != []
    else b != [] && (a[0] < b[0] || (a[0] == b[0] && Below(a[1..], b[1..])))
  }

  lemma {:induction false} BelowIrreflexive(a: string)
    ensures !Below(a, a)
    decreases |a|
  {
    if a != [] {
      BelowIrreflexive(a[1..]);
    }
  }

  lemma {:induction false} BelowTransitive(a: string, b: string, c: string)
    requires Below(a, b) && Below(b, c)
    ensures Below(a, c)
    decreases |a|
  {
    if a != [] && a[0] == b[0] && b[0] == c[0] {
      BelowTransitive(a[1..], b[1..], c[1..]);
    }
  }

  lemma {:induction false} BelowTotal(a: string, b: string)
    ensures a == b || Below(a, b) || Below(b, a)
    decreases |a|
  {
    if a != [] && b != [] && a[0] == b[0] {
      BelowTotal(a[1..], b[1..]);
      if a[1..] == b[1..] {
        assert a == [a[0]] + a[1..] && b == [b[0]] + b[1..];
      }
    }
  }

  // ---------------------------------------------------------------- sorting entries

  /** Keys strictly ascending. */
  predicate Sorted(d: Entries) {
    forall i, j :: 0 <= i < j < |d| ==> Below(d[i].0, d[j].0)
  }

  /** Put `e` in front of the first entry whose key is not below its own. */
  function Insert(e: (string, Value), d: Entries): (r: Entries)
    ensures multiset(r) == multiset(d) + multiset{e}
  {
    if d == [] || !Below(d[0].0, e.0) then [e] + d
    else
      assert d == [d[0]] + d[1..];
      [d[0]] + Insert(e, d[1..])
  }

  /** Insertion keeps the keys ascending when the new key is not among them. */
  lemma {:induction false} InsertSorted(e: (string, Value), d: Entries)
    requires Sorted(d)
    requires forall k :: 0 <= k < |d| ==> d[k].0 != e.0
    ensures Sorted(Insert(e, d))
  {
    if d == [] {
    } else if !Below(d[0].0, e.0) {
      BelowTotal(d[0].0, e.0);
      forall j | 0 <= j < |d|
        ensures Below(e.0, d[j].0)
      {
        if j > 0 {
          BelowTransitive(e.0, d[0].0, d[j].0);
        }
      }
    } else {
      var tail := d[1..];
      var rest := Insert(e, tail);
      InsertSorted(e, tail);
      var r := [d[0]] + rest;
      forall j | 1 <= j < |r|
        ensures Below(d[0].0, r[j].0)
      {
        assert r[j] in multiset(tail) + multiset{e} by {
          assert r[j] == rest[j - 1];
          assert rest[j - 1] in multiset(rest);
        }
        if r[j] != e {
          var k :| 0 <= k < |tail| && tail[k] == r[j];
          assert d[k + 1] == r[j];
        }
      }
    }
  }

  /** `sorted(d.items())`. */
  function SortEntries(d: Entries): (r: Entries)
    ensures multiset(r) == multiset(d)
  {
    if d == [] then []
    else
      assert d == [d[0]] + d[1..];
      Insert(d[0], SortEntries(d[1..]))
  }

  /** Sorting a dict's entries leaves them in strictly ascending key order. */
  lemma {:induction false} SortSorted(d: Entries)
    requires DistinctKeys(d)
    ensures Sorted(SortEntries(d))
  {
    if d != [] {
      var tail := d[1..];
      assert DistinctKeys(tail) by {
        forall i, j | 0 <= i < j < |tail|
          ensures tail[i].0 != tail[j].0
        {
          assert tail[i] == d[i + 1] && tail[j] == d[j + 1];
        }
      }
      SortSorted(tail);
      var s := SortEntries(tail);
      forall k | 0 <= k < |s|
        ensures s[k].0 != d[0].0
      {
        assert s[k] in multiset(tail) by {
          assert s[k] in multiset(s);
        }
        var i :| 0 <= i < |tail| && tail[i] == s[k];
        assert d[i + 1] == s[k];
      }
      InsertSorted(d[0], s);
    }
  }

  /** Dropping the first entry keeps the keys ascending. */
  lemma SortedTail(a: Entries)
    requires Sorted(a) && a != []
    ensures Sorted(a[1..])
  {
    forall x, y | 0 <= x < y < |a| - 1
      ensures Below(a[1..][x].0, a[1..][y].0)
    {
      assert a[1..][x] == a[x + 1] && a[1..][y] == a[y + 1];
    }
  }

  /** Two non-empty lists with ascending keys and the same entries start alike. */
  lemma SortedSameFirst(a: Entries, b: Entries)
    requires Sorted(a) && Sorted(b) && a != []
    requires forall e :: e in a <==> e in b
    ensures b != [] && a[0] == b[0]
  {
    assert a[0] in b;
    var i :| 0 <= i < |b| && b[i] == a[0];
    assert b[0] in a;
    var j :| 0 <= j < |a| && a[j] == b[0];
    if i != 0 {
      if j == 0 {
        BelowIrreflexive(b[0].0);
      } else {
        BelowTransitive(a[0].0, a[j].0, a[0].0);
        BelowIrreflexive(a[0].0);
      }
      assert false;
    }
  }

  /** Two lists with ascending keys and the same entries are the same list. */
  lemma {:induction false} SortedUnique(a: Entries, b: Entries)
    requires Sorted(a) && Sorted(b)
    requires forall e :: e in a <==> e in b
    ensures a == b
    decreases |a|
  {
    if a == [] {
      forall e
        ensures multiset(b)[e] == 0
      {
        assert e !in b;
      }
      assert multiset(b) == multiset{};
      assert |b| == |multiset(b)| == 0;
    } else {
      SortedSameFirst(a, b);
      var a', b' := a[1..], b[1..];
      forall e
        ensures e in a' <==> e in b'
      {
        if e in a' {
          var k :| 0 <= k < |a'| && a'[k] == e;
          assert a[k + 1] == e;
          if e == b[0] {
            BelowIrreflexive(e.0);
            assert false;
          }
          assert e in a;
          var m :| 0 <= m < |b| && b[m] == e;
          assert b'[m - 1] == e;
        }
        if e in b' {
          var k :| 0 <= k < |b'| && b'[k] == e;
          assert b[k + 1] == e;
          if e == a[0] {
            BelowIrreflexive(e.0);
            assert false;
          }
          assert e in b;
          var m :| 0 <= m < |a| && a[m] == e;
          assert a'[m - 1] == e;
        }
      }
      SortedTail(a);
      SortedTail(b);
      SortedUnique(a', b');
      assert a == [a[0]] + a' && b == [b[0]] + b';
    }
  }

  // ---------------------------------------------------------------- canonical values

  /** The value with every dict, at any depth, sorted by key. */
  function Canon(v: Value): Value
    decreases v
  {
    match v
    case List(items) => List(CanonList(items))
    case Object(entries) => Object(SortEntries(CanonEntries(v, entries)))
    case _ => v
  }

  function CanonList(items: seq<Value>): (r: seq<Value>)
    decreases items
  {
    if items == [] then [] else [Canon(items[0])] + CanonList(items[1..])
  }

  /** The entries of the dict `parent` with each value made canonical, keys untouched. */
  function CanonEntries(ghost parent: Value, entries: Entries): (r: Entries)
    requires forall k :: 0 <= k < |entries| ==> entries[k].1 < parent
    ensures |r| == |entries|
    ensures forall k :: 0 <= k < |r| ==> r[k].0 == entries[k].0
    decreases parent, |entries|
  {
    if entries == [] then []
    else [(entries[0].0, Canon(entries[0].1))] + CanonEntries(parent, entries[1..])
  }

  /** An entry is among the canonical entries exactly when it is the canonical form of
      one of the original entries. */
  lemma {:induction false} CanonEntriesAt(parent: Value, entries: Entries)
    requires forall k :: 0 <= k < |entries| ==> entries[k].1 < parent
    ensures forall k :: 0 <= k < |entries| ==> CanonEntries(parent, entries)[k] == (entries[k].0, Canon(entries[k].1))
    decreases |entries|
  {
    if entries != [] {
      CanonEntriesAt(parent, entries[1..]);
      forall k | 1 <= k < |entries|
        ensures CanonEntries(parent, entries)[k] == (entries[k].0, Canon(entries[k].1))
      {
        assert CanonEntries(parent, entries)[k] == CanonEntries(parent, entries[1..])[k - 1];
        assert entries[1..][k - 1] == entries[k];
      }
    }
  }

  /** Python's `==` on values: two dicts are equal when they have the same keys and equal
      values under each key, whatever order the keys were inserted in; two lists when they
      are pairwise equal; anything else when it is the same value. */
  ghost predicate Equal(a: Value, b: Value)
    decreases a
  {
    match a
    case List(xs) =>
      b.List? && |xs| == |b.items| && forall k :: 0 <= k < |xs| ==> Equal(xs[k], b.items[k])
    case Object(xs) =>
      && b.Object? && DistinctKeys(xs) && DistinctKeys(b.entries)
      && (forall key :: HasKey(xs, key) <==> HasKey(b.entries, key))
      && forall k :: 0 <= k < |xs| ==> Equal(xs[k].1, Lookup(b.entries, xs[k].0).value)
    case _ => a == b
  }

  lemma {:induction false} CanonListAt(items: seq<Value>)
    ensures |CanonList(items)| == |items|
    ensures forall k :: 0 <= k < |items| ==> CanonList(items)[k] == Canon(items[k])
    decreases |items|
  {
    if items != [] {
      CanonListAt(items[1..]);
      forall k | 1 <= k < |items|
        ensures CanonList(items)[k] == Canon(items[k])
      {
        assert CanonList(items)[k] == CanonList(items[1..])[k - 1];
        assert items[1..][k - 1] == items[k];
      }
    }
  }

  /** Sorting dicts with the same entries gives the same list. */
  lemma SortSameEntries(x: Entries, y: Entries)
    requires DistinctKeys(x) && DistinctKeys(y)
    requires forall e :: e in x <==> e in y
    ensures SortEntries(x) == SortEntries(y)
  {
    var sx, sy := SortEntries(x), SortEntries(y);
    SortSorted(x);
    SortSorted(y);
    forall e
      ensures e in sx <==> e in sy
    {
      assert e in sx <==> e in multiset(sx);
      assert e in sy <==> e in multiset(sy);
      assert e in x <==> e in multiset(x);
      assert e in y <==> e in multiset(y);
    }
    SortedUnique(sx, sy);
  }

  /** The canonical entries of two dicts with the same keys, whose values under each key
      have the same canonical value, are the same entries. */
  lemma MatchedEntries(xs: Entries, ys: Entries, ca: Entries, cb: Entries)
    requires |ca| == |xs| && |cb| == |ys| && DistinctKeys(ys)
    requires forall k :: 0 <= k < |xs| ==> ca[k] == (xs[k].0, Canon(xs[k].1))
    requires forall j :: 0 <= j < |ys| ==> cb[j] == (ys[j].0, Canon(ys[j].1))
    requires forall j :: 0 <= j < |ys| ==> HasKey(xs, ys[j].0)
    requires forall k :: 0 <= k < |xs| ==> Lookup(ys, xs[k].0).Some?
                                           && Canon(xs[k].1) == Canon(Lookup(ys, xs[k].0).value)
    ensures forall e :: e in ca <==> e in cb
  {
    forall e | e in ca
      ensures e in cb
    {
      var k :| 0 <= k < |ca| && ca[k] == e;
      var v := Lookup(ys, xs[k].0).value;
      var j :| 0 <= j < |ys| && ys[j] == (xs[k].0, v);
      assert cb[j] == e;
    }
    forall e | e in cb
      ensures e in ca
    {
      var j :| 0 <= j < |cb| && cb[j] == e;
      var k :| 0 <= k < |xs| && xs[k].0 == ys[j].0;
      assert Lookup(ys, ys[j].0) == Some(ys[j].1);
      assert ca[k] == e;
    }
  }

  /** Making the values canonical keeps the keys distinct. */
  lemma CanonEntriesDistinct(parent: Value, entries: Entries)
    requires forall k :: 0 <= k < |entries| ==> entries[k].1 < parent
    requires DistinctKeys(entries)
    ensures DistinctKeys(CanonEntries(parent, entries))
  {
    var c := CanonEntries(parent, entries);
    forall i, j | 0 <= i < j < |c|
      ensures c[i].0 != c[j].0
    {
      assert c[i].0 == entries[i].0 && c[j].0 == entries[j].0;
    }
  }

  /** Two dicts with the same keys whose values under each key have the same canonical
      value have the same sorted canonical entries. */
  lemma CanonObjectsEqual(xs: Entries, ys: Entries)
    requires DistinctKeys(xs) && DistinctKeys(ys)
    requires forall j :: 0 <= j < |ys| ==> HasKey(xs, ys[j].0)
    requires forall k :: 0 <= k < |xs| ==> Lookup(ys, xs[k].0).Some?
                                           && Canon(xs[k].1) == Canon(Lookup(ys, xs[k].0).value)
    ensures SortEntries(CanonEntries(Object(xs), xs)) == SortEntries(CanonEntries(Object(ys), ys))
  {
    var a, b := Object(xs), Object(ys);
    var ca, cb := CanonEntries(a, xs), CanonEntries(b, ys);
    CanonEntriesAt(a, xs);
    CanonEntriesAt(b, ys);
    CanonEntriesDistinct(a, xs);
    CanonEntriesDistinct(b, ys);
    MatchedEntries(xs, ys, ca, cb);
    SortSameEntries(ca, cb);
  }

  /** Equal values, dicts at any depth included, have the same canonical value, so the
      order in which any dict's keys were inserted does not matter. */
  lemma {:induction false} CanonIgnoresOrder(a: Value, b: Value)
    requires Equal(a, b)
    ensures Canon(a) == Canon(b)
    decreases a
  {
    match a
    case List(xs) =>
      var ys := b.items;
      CanonListAt(xs);
      CanonListAt(ys);
      forall k | 0 <= k < |xs|
        ensures CanonList(xs)[k] == CanonList(ys)[k]
      {
        CanonIgnoresOrder(xs[k], ys[k]);
      }
    case Object(xs) =>
      var ys := b.entries;
      forall k | 0 <= k < |xs|
        ensures Lookup(ys, xs[k].0).Some? && Canon(xs[k].1) == Canon(Lookup(ys, xs[k].0).value)
      {
        assert HasKey(xs, xs[k].0);
        CanonIgnoresOrder(xs[k].1, Lookup(ys, xs[k].0).value);
      }
      forall j | 0 <= j < |ys|
        ensures HasKey(xs, ys[j].0)
      {
        assert HasKey(ys, ys[j].0);
      }
      CanonObjectsEqual(xs, ys);
    case _ =>
  }
}

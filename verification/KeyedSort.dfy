/** Sorting by keys that are compared element by element, as strings and tuples are. */
module KeyedSort {
  type Key = seq<int>

  datatype Entry<T> = Entry(key: Key, value: T)

  predicate Less(a: Key, b: Key) {
    if b == [] then false
    else if a == [] then true
    else if a[0] != b[0] then a[0] < b[0]
    else Less(a[1..], b[1..])
  }

  lemma {:induction false} LessTotal(a: Key, b: Key)
    ensures a == b || Less(a, b) || Less(b, a)
    ensures !(Less(a, b) && Less(b, a)) && (a == b ==> !Less(a, b))
  {
    if a != [] && b != [] {
      if a[0] == b[0] {
        LessTotal(a[1..], b[1..]);
        assert a == [a[0]] + a[1..] && b == [b[0]] + b[1..];
      }
    }
  }

  lemma {:induction false} LessTransitive(a: Key, b: Key, c: Key)
    requires Less(a, b) && Less(b, c)
    ensures Less(a, c)
  {
    if a != [] && a[0] == b[0] && b[0] == c[0] {
      LessTransitive(a[1..], b[1..], c[1..]);
    }
  }

  function Insert<T(!new)>(e: Entry<T>, es: seq<Entry<T>>): seq<Entry<T>> {
    if es == [] then [e]
    else if Less(e.key, es[0].key) then [e] + es
    else [es[0]] + Insert(e, es[1..])
  }

  /** A stable sort. */
  function Sort<T(!new)>(es: seq<Entry<T>>): seq<Entry<T>> {
    if es == [] then [] else Insert(es[|es| - 1], Sort(es[..|es| - 1]))
  }

  ghost predicate Sorted<T(!new)>(es: seq<Entry<T>>) { forall i, j | 0 <= i < j < |es| :: Less(es[i].key, es[j].key) }

  ghost predicate Distinct<T(!new)>(es: seq<Entry<T>>) { forall i, j | 0 <= i < j < |es| :: es[i].key != es[j].key }

  ghost predicate SameEntries<T(!new)>(a: seq<Entry<T>>, b: seq<Entry<T>>) { (forall e | e in a :: e in b) && forall e | e in b :: e in a }

  lemma {:induction false} InsertEntries<T(!new)>(e: Entry<T>, es: seq<Entry<T>>)
    ensures |Insert(e, es)| == |es| + 1
    ensures forall x :: x in Insert(e, es) <==> x == e || x in es
  {
    if es != [] && !Less(e.key, es[0].key) {
      InsertEntries(e, es[1..]);
      assert es == [es[0]] + es[1..];
    }
  }

  lemma {:induction false} SortEntries<T(!new)>(es: seq<Entry<T>>)
    ensures |Sort(es)| == |es| && SameEntries(Sort(es), es)
  {
    if es != [] {
      var n := |es| - 1;
      SortEntries(es[..n]);
      InsertEntries(es[n], Sort(es[..n]));
      assert es == es[..n] + [es[n]];
    }
  }

  lemma {:induction false} InsertSorted<T(!new)>(e: Entry<T>, es: seq<Entry<T>>)
    requires Sorted(es) && forall x | x in es :: x.key != e.key
    ensures Sorted(Insert(e, es))
  {
    if es != [] {
      if Less(e.key, es[0].key) {
        forall j | 0 <= j < |es| ensures Less(e.key, es[j].key) {
          if j > 0 {
            LessTransitive(e.key, es[0].key, es[j].key);
          }
        }
      } else {
        InsertSorted(e, es[1..]);
        InsertEntries(e, es[1..]);
        LessTotal(e.key, es[0].key);
        var r := Insert(e, es[1..]);
        forall j | 0 <= j < |r| ensures Less(es[0].key, r[j].key) {
          assert r[j] in r;
          if r[j] != e {
            var i :| 0 <= i < |es[1..]| && es[1..][i] == r[j];
            assert es[i + 1] == r[j];
          }
        }
      }
    }
  }

  lemma {:induction false} SortSorts<T(!new)>(es: seq<Entry<T>>)
    requires Distinct(es)
    ensures Sorted(Sort(es))
  {
    if es != [] {
      var n := |es| - 1;
      SortSorts(es[..n]);
      SortEntries(es[..n]);
      forall x | x in Sort(es[..n]) ensures x.key != es[n].key {
        assert x in es[..n];
      }
      InsertSorted(es[n], Sort(es[..n]));
    }
  }

  lemma {:induction false} SameHead<T(!new)>(a: seq<Entry<T>>, b: seq<Entry<T>>)
    requires Sorted(a) && Sorted(b) && SameEntries(a, b) && a != [] && b != []
    ensures a[0] == b[0]
  {
    assert a[0] in b && b[0] in a;
    var i :| 0 <= i < |a| && a[i] == b[0];
    var j :| 0 <= j < |b| && b[j] == a[0];
    if i > 0 && j > 0 {
      LessTotal(a[0].key, b[0].key);
    }
  }

  lemma {:induction false} TailEntries<T(!new)>(a: seq<Entry<T>>)
    requires Sorted(a) && a != []
    ensures forall e :: e in a[1..] <==> e in a && e != a[0]
  {
    forall e | e in a[1..] ensures e != a[0] {
      var i :| 0 <= i < |a[1..]| && a[1..][i] == e;
      assert Less(a[0].key, a[i + 1].key);
      LessTotal(a[0].key, a[i + 1].key);
    }
    assert a == [a[0]] + a[1..];
  }

  lemma {:induction false} NoEntries<T(!new)>(a: seq<Entry<T>>, b: seq<Entry<T>>)
    requires SameEntries(a, b)
    ensures a == [] <==> b == []
  {
    if a != [] {
      assert a[0] in a;
    }
    if b != [] {
      assert b[0] in b;
    }
  }

  /** Sorted lists with the same entries are the same list. */
  lemma {:induction false} SortedUnique<T(!new)>(a: seq<Entry<T>>, b: seq<Entry<T>>)
    requires Sorted(a) && Sorted(b) && SameEntries(a, b)
    ensures a == b
  {
    NoEntries(a, b);
    if a != [] {
      SameHead(a, b);
      TailEntries(a);
      TailEntries(b);
      SortedUnique(a[1..], b[1..]);
      assert a == [a[0]] + a[1..] && b == [b[0]] + b[1..];
    }
  }

  /** With distinct keys, the sorted list says exactly which entries there are. */
  lemma {:induction false} SortCanonical<T(!new)>(a: seq<Entry<T>>, b: seq<Entry<T>>)
    requires Distinct(a) && Distinct(b)
    ensures Sort(a) == Sort(b) <==> SameEntries(a, b)
  {
    SortEntries(a);
    SortEntries(b);
    SortSorts(a);
    SortSorts(b);
    if SameEntries(a, b) {
      SortedUnique(Sort(a), Sort(b));
    } else if Sort(a) == Sort(b) {
      assert SameEntries(a, b);
    }
  }

  lemma {:induction false} SortAgain<T(!new)>(es: seq<Entry<T>>)
    requires Sorted(es)
    ensures Sort(es) == es
  {
    SortedDistinct(es);
    SortSorts(es);
    SortEntries(es);
    SortedUnique(Sort(es), es);
  }

  lemma {:induction false} SortedDistinct<T(!new)>(es: seq<Entry<T>>)
    requires Sorted(es)
    ensures Distinct(es)
  {
    forall i, j | 0 <= i < j < |es| ensures es[i].key != es[j].key {
      LessTotal(es[i].key, es[j].key);
    }
  }

  lemma {:induction false} SortDistinct<T(!new)>(es: seq<Entry<T>>)
    requires Distinct(es)
    ensures Distinct(Sort(es))
  {
    SortSorts(es);
    SortedDistinct(Sort(es));
  }

  // ----- Only the keys decide the order -----

  function MapValues<T(!new), U(!new)>(f: T -> U, es: seq<Entry<T>>): (r: seq<Entry<U>>)
    ensures |r| == |es|
  {
    seq(|es|, i requires 0 <= i < |es| => Entry(es[i].key, f(es[i].value)))
  }

  lemma {:induction false} InsertMap<T(!new), U(!new)>(f: T -> U, e: Entry<T>, es: seq<Entry<T>>)
    ensures MapValues(f, Insert(e, es)) == Insert(Entry(e.key, f(e.value)), MapValues(f, es))
  {
    if es != [] {
      if Less(e.key, es[0].key) {
        assert MapValues(f, [e] + es) == [Entry(e.key, f(e.value))] + MapValues(f, es);
      } else {
        InsertMap(f, e, es[1..]);
        assert MapValues(f, es)[1..] == MapValues(f, es[1..]);
        var r := Insert(e, es[1..]);
        assert MapValues(f, [es[0]] + r) == [Entry(es[0].key, f(es[0].value))] + MapValues(f, r);
      }
    }
  }

  lemma {:induction false} SortMap<T(!new), U(!new)>(f: T -> U, es: seq<Entry<T>>)
    ensures MapValues(f, Sort(es)) == Sort(MapValues(f, es))
  {
    if es != [] {
      var n := |es| - 1;
      SortMap(f, es[..n]);
      InsertMap(f, es[n], Sort(es[..n]));
      assert MapValues(f, es)[..n] == MapValues(f, es[..n]);
    }
  }
}

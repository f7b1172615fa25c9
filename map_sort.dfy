/** `mapSort` of the dashboard (frontend/src/main.ts): the entries of a count record, most
 *  frequent first.
 *
 *  `Object.entries` lists the record's entries in the record's own enumeration order, and
 *  `Array.prototype.sort` is stable, so entries of equal count keep that order.  The record is
 *  modelled by that list of entries.
 */
module Frontend {

  /** A `[key, count]` pair of `Object.entries`. */
  datatype Entry = Entry(key: string, count: int)

  /** The entries of a record: no key twice. */
  predicate IsRecord(d: seq<Entry>) {
    forall i, j :: 0 <= i < j < |d| ==> d[i].key != d[j].key
  }

  /** Ordered by count, largest first. */
  predicate SortedDesc(s: seq<Entry>) {
    forall i, j :: 0 <= i < j < |s| ==> s[i].count >= s[j].count
  }

  /** The entries of `s` whose count is `c`, in order. */
  function WithCount(s: seq<Entry>, c: int): seq<Entry> {
    if s == [] then [] else (if s[0].count == c then [s[0]] else []) + WithCount(s[1..], c)
  }

  /** Place `e` before the first entry whose count does not exceed its own: where a stable sort
   *  by the comparator `b[1] - a[1]` puts an element that came before all of `s`. */
  function Insert(e: Entry, s: seq<Entry>): (r: seq<Entry>)
    ensures multiset(r) == multiset(s) + multiset{e}
  {
    if s == [] || e.count >= s[0].count then [e] + s
    else
      assert s == [s[0]] + s[1..];
      [s[0]] + Insert(e, s[1..])
  }

  /** A bound on every count survives inserting an entry within it. */
  lemma InsertBounded(e: Entry, s: seq<Entry>, b: int)
    requires e.count <= b && forall k :: 0 <= k < |s| ==> s[k].count <= b
    ensures forall x :: x in Insert(e, s) ==> x.count <= b
  {
    forall x | x in Insert(e, s) ensures x.count <= b {
      assert x in multiset(Insert(e, s));
      if x != e {
        assert x in multiset(s);
      }
    }
  }

  /** An entry ahead of a list whose counts it bounds keeps the list sorted. */
  lemma ConsSorted(h: Entry, t: seq<Entry>)
    requires SortedDesc(t) && forall x :: x in t ==> x.count <= h.count
    ensures SortedDesc([h] + t)
  {
    forall i, j | 0 <= i < j < |[h] + t| ensures ([h] + t)[i].count >= ([h] + t)[j].count {
      assert ([h] + t)[j] == t[j - 1];
      if i == 0 {
        assert t[j - 1] in t;
      } else {
        assert ([h] + t)[i] == t[i - 1];
      }
    }
  }

  /** Inserting into a list sorted by count keeps it sorted. */
  lemma {:induction false} InsertSorted(e: Entry, s: seq<Entry>)
    requires SortedDesc(s)
    ensures SortedDesc(Insert(e, s))
  {
    if s != [] && e.count < s[0].count {
      InsertSorted(e, s[1..]);
      InsertBounded(e, s[1..], s[0].count);
      ConsSorted(s[0], Insert(e, s[1..]));
    }
  }

  /** `mapSort`. */
  function MapSort(d: seq<Entry>): (r: seq<Entry>)
    ensures multiset(r) == multiset(d)
    ensures SortedDesc(r)
  {
    if d == [] then []
    else
      assert d == [d[0]] + d[1..];
      InsertSorted(d[0], MapSort(d[1..]));
      Insert(d[0], MapSort(d[1..]))
  }

  /** Inserting `e` keeps the order of the entries of each count, with `e` ahead of those of its
   *  own count. */
  lemma {:induction false} InsertStable(e: Entry, s: seq<Entry>, c: int)
    ensures WithCount(Insert(e, s), c) == (if e.count == c then [e] else []) + WithCount(s, c)
  {
    if s == [] || e.count >= s[0].count {
      assert ([e] + s)[1..] == s;
    } else {
      var r := [s[0]] + Insert(e, s[1..]);
      assert r[1..] == Insert(e, s[1..]);
      InsertStable(e, s[1..], c);
    }
  }

  /** Stability: the entries of any one count appear in the order the record lists them. */
  lemma {:induction false} MapSortStable(d: seq<Entry>, c: int)
    ensures WithCount(MapSort(d), c) == WithCount(d, c)
  {
    if d != [] {
      MapSortStable(d[1..], c);
      InsertStable(d[0], MapSort(d[1..]), c);
    }
  }

  /** One output entry per key of the record, each with the record's count for that key. */
  lemma MapSortEntries(d: seq<Entry>)
    requires IsRecord(d)
    ensures |MapSort(d)| == |d| && IsRecord(MapSort(d))
    ensures forall e :: e in MapSort(d) <==> e in d
  {
    var r := MapSort(d);
    assert |r| == |multiset(r)| == |multiset(d)| == |d|;
    forall e ensures e in r <==> e in d {
      assert e in r <==> e in multiset(r);
      assert e in d <==> e in multiset(d);
    }
    forall i, j | 0 <= i < j < |r| ensures r[i].key != r[j].key {
      if r[i].key == r[j].key {
        assert r[i] in d && r[j] in d;
        var i' :| 0 <= i' < |d| && d[i'] == r[i];
        var j' :| 0 <= j' < |d| && d[j'] == r[j];
        if i' == j' {
          assert r[i] == r[j];
          DuplicateCounted(r, i, j);
          assert multiset(d)[r[i]] >= 2;
          SingleCounted(d, i');
          assert false;
        }
      }
    }
  }

  /** An entry at two positions occurs at least twice. */
  lemma DuplicateCounted(s: seq<Entry>, i: nat, j: nat)
    requires i < j < |s| && s[i] == s[j]
    ensures multiset(s)[s[i]] >= 2
  {
    assert s == s[..i] + [s[i]] + s[i + 1..j] + [s[j]] + s[j + 1..];
  }

  /** An entry of a record occurs once. */
  lemma SingleCounted(d: seq<Entry>, i: nat)
    requires IsRecord(d) && i < |d|
    ensures multiset(d)[d[i]] == 1
  {
    assert d == d[..i] + [d[i]] + d[i + 1..];
    assert d[i] !in d[..i] by {
      forall k | 0 <= k < i ensures d[..i][k] != d[i] { assert d[k].key != d[i].key; }
    }
    assert d[i] !in d[i + 1..] by {
      forall k | i + 1 <= k < |d| ensures d[k] != d[i] { assert d[k].key != d[i].key; }
    }
  }

  /** The empty record gives the empty list. */
  lemma MapSortEmpty()
    ensures MapSort([]) == []
  {
  }
}

/**
 * Stable sorting by a total preorder: what Python's `list.sort(key=...)`
 * and an SQL `ORDER BY` promise about the order of the rows they return.
 */
module Sorting {

  /** le is total and transitive, as a comparison of sort keys is. */
  ghost predicate TotalPreorder<T(!new)>(le: (T, T) -> bool) {
    && (forall a, b :: le(a, b) || le(b, a))
    && (forall a, b, c :: le(a, b) && le(b, c) ==> le(a, c))
  }

  predicate SortedBy<T>(s: seq<T>, le: (T, T) -> bool) {
    forall i, j :: 0 <= i < j < |s| ==> le(s[i], s[j])
  }

  /** Places x before the first element it does not follow. */
  function Insert<T(!new)>(x: T, s: seq<T>, le: (T, T) -> bool): (r: seq<T>)
    requires TotalPreorder(le)
    requires SortedBy(s, le)
    ensures SortedBy(r, le)
    ensures multiset(r) == multiset(s) + multiset{x}
  {
    if s == [] then [x]
    else if le(x, s[0]) then [x] + s
    else
      var rest := Insert(x, s[1..], le);
      assert s == [s[0]] + s[1..];
      assert forall k :: 0 <= k < |rest| ==> le(s[0], rest[k]) by {
        forall k | 0 <= k < |rest| ensures le(s[0], rest[k]) {
          assert rest[k] in multiset(rest);
          assert rest[k] == x || rest[k] in multiset(s[1..]);
          if rest[k] != x {
            var j :| 0 <= j < |s[1..]| && s[1..][j] == rest[k];
            assert s[j + 1] == rest[k];
          }
        }
      }
      [s[0]] + rest
  }

  /** The elements of s, sorted by le; equal keys keep their order. */
  function InsertionSort<T(!new)>(s: seq<T>, le: (T, T) -> bool): (r: seq<T>)
    requires TotalPreorder(le)
    ensures SortedBy(r, le)
    ensures multiset(r) == multiset(s)
  {
    if s == [] then []
    else
      assert s == [s[0]] + s[1..];
      Insert(s[0], InsertionSort(s[1..], le), le)
  }

  /** a and b have equal keys under le. */
  predicate Equivalentes<T>(a: T, b: T, le: (T, T) -> bool) {
    le(a, b) && le(b, a)
  }

  /** The elements of s whose key equals that of y, in their order in s. */
  function Empatados<T>(s: seq<T>, y: T, le: (T, T) -> bool): (r: seq<T>)
    ensures |r| <= |s|
  {
    if s == [] then []
    else (if Equivalentes(s[0], y, le) then [s[0]] else []) + Empatados(s[1..], y, le)
  }

  /** Inserting x puts it before the elements of s whose key equals its own. */
  lemma {:induction false} InsertEmpatados<T(!new)>(x: T, s: seq<T>, y: T, le: (T, T) -> bool)
    requires TotalPreorder(le)
    requires SortedBy(s, le)
    ensures Empatados(Insert(x, s, le), y, le)
            == (if Equivalentes(x, y, le) then [x] else []) + Empatados(s, y, le)
  {
    var ex := if Equivalentes(x, y, le) then [x] else [];
    if s == [] {
      assert Insert(x, s, le) == [x];
      assert [x][1..] == [];
      assert Empatados([x], y, le) == ex + Empatados([], y, le);
    } else if le(x, s[0]) {
      assert Insert(x, s, le) == [x] + s;
      assert ([x] + s)[1..] == s;
      assert Empatados([x] + s, y, le) == ex + Empatados(s, y, le);
    } else {
      var rest := Insert(x, s[1..], le);
      var e0 := if Equivalentes(s[0], y, le) then [s[0]] else [];
      assert Insert(x, s, le) == [s[0]] + rest;
      assert ([s[0]] + rest)[1..] == rest;
      assert Empatados(s, y, le) == e0 + Empatados(s[1..], y, le);
      InsertEmpatados(x, s[1..], y, le);
      assert Empatados([s[0]] + rest, y, le) == e0 + (ex + Empatados(s[1..], y, le));
      // x does not follow s[0], so they cannot both have y's key
      assert e0 == [] || ex == [];
      var resto := Empatados(s[1..], y, le);
      calc {
        Empatados(Insert(x, s, le), y, le);
        Empatados([s[0]] + rest, y, le);
        e0 + (ex + resto);
        { assert e0 + ex == ex + e0; }
        ex + (e0 + resto);
        ex + Empatados(s, y, le);
      }
    }
  }

  /** Elements with equal keys keep their relative order: the sort is stable. */
  lemma {:induction false} InsertionSortEstavel<T(!new)>(s: seq<T>, y: T, le: (T, T) -> bool)
    requires TotalPreorder(le)
    ensures Empatados(InsertionSort(s, le), y, le) == Empatados(s, y, le)
  {
    if s != [] {
      InsertionSortEstavel(s[1..], y, le);
      InsertEmpatados(s[0], InsertionSort(s[1..], le), y, le);
    }
  }

  /** Text order as SQL compares text under the binary collation: character by character. */
  predicate TextoAntes(a: string, b: string)
    decreases |a|
  {
    a == [] || (b != [] && (a[0] < b[0] || (a[0] == b[0] && TextoAntes(a[1..], b[1..]))))
  }

  lemma {:induction false} TextoAntesTotal(a: string, b: string)
    ensures TextoAntes(a, b) || TextoAntes(b, a)
    decreases |a|
  {
    if a != [] && b != [] && a[0] == b[0] {
      TextoAntesTotal(a[1..], b[1..]);
    }
  }

  lemma {:induction false} TextoAntesTransitivo(a: string, b: string, c: string)
    requires TextoAntes(a, b) && TextoAntes(b, c)
    ensures TextoAntes(a, c)
    decreases |a|
  {
    if a != [] && a[0] == b[0] && b[0] == c[0] {
      TextoAntesTransitivo(a[1..], b[1..], c[1..]);
    }
  }
}

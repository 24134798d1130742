/** The ordering primitives the front end takes from the JavaScript runtime: the stable
    `Array.prototype.sort` with a comparator, the default string order it uses without one,
    and `reverse`. */
module Sorting {

  /** `le(a, b)` says that `a` may stand before `b`; a comparator defines a total preorder. */
  ghost predicate TotalPreorder<T(!new)>(le: (T, T) -> bool)
  {
    && (forall a, b :: le(a, b) || le(b, a))
    && (forall a, b, c :: le(a, b) && le(b, c) ==> le(a, c))
  }

  ghost predicate Sorted<T>(s: seq<T>, le: (T, T) -> bool)
  {
    forall i, j :: 0 <= i < j < |s| ==> le(s[i], s[j])
  }

  /** One step of a stable insertion sort: `x` goes after every element allowed before it,
      hence after the elements it ties with. */
  function Insert<T>(x: T, s: seq<T>, le: (T, T) -> bool): (r: seq<T>)
    ensures |r| == |s| + 1
    ensures multiset(r) == multiset(s) + multiset{x}
  {
    if s == [] then [x]
    else if le(s[0], x) then
      assert s == [s[0]] + s[1..];
      [s[0]] + Insert(x, s[1..], le)
    else [x] + s
  }

  /** The stable sort: the elements taken in input order, each inserted into the sorted prefix. */
  function Sort<T>(s: seq<T>, le: (T, T) -> bool): (r: seq<T>)
    ensures |r| == |s|
    ensures multiset(r) == multiset(s)
  {
    if s == [] then []
    else
      assert s == s[..|s| - 1] + [s[|s| - 1]];
      Insert(s[|s| - 1], Sort(s[..|s| - 1], le), le)
  }

  /** The index of the first element that may stand before every element of `s`. */
  function FirstBest<T>(s: seq<T>, le: (T, T) -> bool): (k: nat)
    requires |s| > 0
    ensures k < |s|
  {
    if |s| == 1 then 0
    else
      var k := FirstBest(s[..|s| - 1], le);
      if le(s[k], s[|s| - 1]) then k else |s| - 1
  }

  lemma {:induction false} InsertSorted<T(!new)>(x: T, s: seq<T>, le: (T, T) -> bool)
    requires TotalPreorder(le) && Sorted(s, le)
    ensures Sorted(Insert(x, s, le), le)
  {
    if s != [] {
      if le(s[0], x) {
        InsertSorted(x, s[1..], le);
        var t := Insert(x, s[1..], le);
        forall j | 0 <= j < |t| ensures le(s[0], t[j]) {
          assert t[j] in multiset(t);
          assert t[j] in multiset(s[1..]) || t[j] == x;
          if t[j] != x {
            var m :| 0 <= m < |s[1..]| && s[1..][m] == t[j];
            assert s[m + 1] == t[j];
          }
        }
      } else {
        assert le(x, s[0]);
      }
    }
  }

  lemma {:induction false} SortSorted<T(!new)>(s: seq<T>, le: (T, T) -> bool)
    requires TotalPreorder(le)
    ensures Sorted(Sort(s, le), le)
  {
    if s != [] {
      SortSorted(s[..|s| - 1], le);
      InsertSorted(s[|s| - 1], Sort(s[..|s| - 1], le), le);
    }
  }

  /** The element picked as `FirstBest` may stand before every element, and every element
      before it is strictly worse. */
  lemma {:induction false} FirstBestIsBest<T(!new)>(s: seq<T>, le: (T, T) -> bool)
    requires TotalPreorder(le) && |s| > 0
    ensures forall j :: 0 <= j < |s| ==> le(s[FirstBest(s, le)], s[j])
    ensures forall i :: 0 <= i < FirstBest(s, le) ==> !le(s[i], s[FirstBest(s, le)])
  {
    if |s| > 1 {
      var p := s[..|s| - 1];
      FirstBestIsBest(p, le);
      var k := FirstBest(p, le);
      assert forall j :: 0 <= j < |p| ==> le(s[k], s[j]);
    }
  }

  /** The head of the stable sort is the first best element of the input, as `sort(...)[0]`
      is used in the source to pick a maximum. */
  lemma {:induction false} SortHead<T>(s: seq<T>, le: (T, T) -> bool)
    requires |s| > 0
    ensures |Sort(s, le)| == |s| && Sort(s, le)[0] == s[FirstBest(s, le)]
  {
    if |s| > 1 {
      SortHead(s[..|s| - 1], le);
    }
  }

  /** The same sort as a loop that inserts the elements one after another. */
  method SortInOrder<T>(s: seq<T>, le: (T, T) -> bool) returns (r: seq<T>)
    ensures r == Sort(s, le)
  {
    r := [];
    var i := 0;
    while i < |s|
      invariant 0 <= i <= |s|
      invariant r == Sort(s[..i], le)
    {
      assert s[..i + 1][..i] == s[..i];
      r := Insert(s[i], r, le);
      i := i + 1;
    }
    assert s[..|s|] == s;
  }

  function Reverse<T>(s: seq<T>): (r: seq<T>)
    ensures |r| == |s|
    ensures forall i :: 0 <= i < |s| ==> r[i] == s[|s| - 1 - i]
  {
    if s == [] then [] else Reverse(s[1..]) + [s[0]]
  }

  /** The default string order of `Array.prototype.sort`: lexicographic by character. */
  predicate LexLe(a: string, b: string)
  {
    a == [] || (b != [] && (a[0] < b[0] || (a[0] == b[0] && LexLe(a[1..], b[1..]))))
  }

  lemma {:induction false} LexTotal(a: string, b: string)
    ensures LexLe(a, b) || LexLe(b, a)
  {
    if a != [] && b != [] && a[0] == b[0] {
      LexTotal(a[1..], b[1..]);
    }
  }

  lemma {:induction false} LexTransitive(a: string, b: string, c: string)
    requires LexLe(a, b) && LexLe(b, c)
    ensures LexLe(a, c)
  {
    if a != [] && b != [] && c != [] && a[0] == b[0] && b[0] == c[0] {
      LexTransitive(a[1..], b[1..], c[1..]);
    }
  }

  lemma {:induction false} LexAntisymmetric(a: string, b: string)
    requires LexLe(a, b) && LexLe(b, a)
    ensures a == b
  {
    if a != [] && b != [] {
      LexAntisymmetric(a[1..], b[1..]);
      assert a == [a[0]] + a[1..] && b == [b[0]] + b[1..];
    }
  }

  lemma LexTotalPreorder()
    ensures TotalPreorder(LexLe)
  {
    forall a, b ensures LexLe(a, b) || LexLe(b, a) {
      LexTotal(a, b);
    }
    forall a, b, c | LexLe(a, b) && LexLe(b, c) ensures LexLe(a, c) {
      LexTransitive(a, b, c);
    }
  }

  /** `[...strings].sort()`: ascending, a permutation of the input. */
  lemma SortStringsAscending(s: seq<string>)
    ensures multiset(Sort(s, LexLe)) == multiset(s)
    ensures forall i, j :: 0 <= i < j < |s| ==> LexLe(Sort(s, LexLe)[i], Sort(s, LexLe)[j])
  {
    LexTotalPreorder();
    SortSorted(s, LexLe);
  }
}

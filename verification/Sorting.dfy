/**
 Python's `sorted`, as a stable insertion sort, together with the fact that makes every use of it
 in the model independent of dictionary order: under a strict total order, the sorted sequence is
 determined by the elements alone.
 */
module Sorting {

  function Insert<T>(less: (T, T) -> bool, x: T, xs: seq<T>): seq<T> {
    if xs == [] then [x]
    else if !less(xs[0], x) then [x] + xs
    else [xs[0]] + Insert(less, x, xs[1..])
  }

  function Sort<T>(less: (T, T) -> bool, xs: seq<T>): seq<T> {
    if xs == [] then [] else Insert(less, xs[0], Sort(less, xs[1..]))
  }

  /** `less` orders the elements of `xs` strictly and totally. */
  ghost predicate TotalOn<T>(less: (T, T) -> bool, xs: multiset<T>) {
    && (forall x :: x in xs ==> !less(x, x))
    && (forall x, y :: x in xs && y in xs && x != y ==> less(x, y) || less(y, x))
    && (forall x, y, z :: x in xs && y in xs && z in xs && less(x, y) && less(y, z) ==> less(x, z))
  }

  ghost predicate Sorted<T>(less: (T, T) -> bool, xs: seq<T>) {
    forall i, j :: 0 <= i < j < |xs| ==> !less(xs[j], xs[i])
  }

  lemma {:induction false} InsertElements<T>(less: (T, T) -> bool, x: T, xs: seq<T>)
    ensures multiset(Insert(less, x, xs)) == multiset{x} + multiset(xs)
    ensures |Insert(less, x, xs)| == |xs| + 1
  {
    if xs != [] && less(xs[0], x) {
      InsertElements(less, x, xs[1..]);
    }
    if xs != [] {
      assert xs == [xs[0]] + xs[1..];
    }
  }

  /** Sorting loses, invents and duplicates nothing. */
  lemma {:induction false} SortElements<T>(less: (T, T) -> bool, xs: seq<T>)
    ensures multiset(Sort(less, xs)) == multiset(xs)
    ensures |Sort(less, xs)| == |xs|
  {
    if xs != [] {
      SortElements(less, xs[1..]);
      InsertElements(less, xs[0], Sort(less, xs[1..]));
      assert xs == [xs[0]] + xs[1..];
    }
  }

  lemma SubTotal<T>(less: (T, T) -> bool, xs: multiset<T>, all: multiset<T>)
    requires TotalOn(less, all) && forall x :: x in xs ==> x in all
    ensures TotalOn(less, xs)
  {
  }

  lemma HeadAndTail<T>(xs: seq<T>)
    requires xs != []
    ensures multiset(xs) == multiset{xs[0]} + multiset(xs[1..])
    ensures xs[0] in multiset(xs)
  {
    assert xs == [xs[0]] + xs[1..];
  }

  lemma SortedTail<T>(less: (T, T) -> bool, xs: seq<T>)
    requires xs != [] && Sorted(less, xs) && TotalOn(less, multiset(xs))
    ensures Sorted(less, xs[1..]) && TotalOn(less, multiset(xs[1..]))
  {
    HeadAndTail(xs);
    SubTotal(less, multiset(xs[1..]), multiset(xs));
  }

  lemma InsertAtFront<T>(less: (T, T) -> bool, x: T, xs: seq<T>)
    requires TotalOn(less, multiset{x} + multiset(xs)) && Sorted(less, xs)
    requires xs != [] && !less(xs[0], x)
    ensures Sorted(less, [x] + xs)
  {
    var all := multiset{x} + multiset(xs);
    forall j | 0 <= j < |xs| ensures !less(xs[j], x) {
      assert x in all && xs[j] in all && xs[0] in all;
      assert j > 0 ==> !less(xs[j], xs[0]);
    }
  }

  lemma InsertBehind<T>(less: (T, T) -> bool, x: T, xs: seq<T>)
    requires xs != [] && Sorted(less, xs) && less(xs[0], x)
    requires TotalOn(less, multiset{xs[0], x})
    requires Sorted(less, Insert(less, x, xs[1..]))
    ensures Sorted(less, Insert(less, x, xs))
  {
    var head, rest := xs[0], xs[1..];
    var out := Insert(less, x, rest);
    InsertElements(less, x, rest);
    forall j | 0 <= j < |out| ensures !less(out[j], head) {
      assert out[j] in multiset(out);
      if out[j] == x {
        assert x in multiset{head, x} && head in multiset{head, x};
      } else {
        assert out[j] in multiset(rest);
        var k :| 0 <= k < |rest| && rest[k] == out[j];
        assert xs[k + 1] == out[j];
      }
    }
  }

  lemma InsertTotals<T>(less: (T, T) -> bool, x: T, xs: seq<T>)
    requires TotalOn(less, multiset{x} + multiset(xs)) && xs != []
    ensures TotalOn(less, multiset(xs)) && TotalOn(less, multiset{x} + multiset(xs[1..]))
    ensures TotalOn(less, multiset{xs[0], x})
  {
    hide TotalOn;
    var all := multiset{x} + multiset(xs);
    HeadAndTail(xs);
    SubTotal(less, multiset(xs), all);
    SubTotal(less, multiset{x} + multiset(xs[1..]), all);
    SubTotal(less, multiset{xs[0], x}, all);
  }

  lemma {:induction false} InsertSorted<T>(less: (T, T) -> bool, x: T, xs: seq<T>)
    requires TotalOn(less, multiset{x} + multiset(xs)) && Sorted(less, xs)
    ensures Sorted(less, Insert(less, x, xs))
  {
    if xs == [] {
    } else {
      hide TotalOn, Sorted;
      var rest := xs[1..];
      if !less(xs[0], x) {
        InsertAtFront(less, x, xs);
      } else {
        InsertTotals(less, x, xs);
        SortedTail(less, xs);
        InsertSorted(less, x, rest);
        InsertBehind(less, x, xs);
      }
    }
  }

  lemma {:induction false} SortSorted<T>(less: (T, T) -> bool, xs: seq<T>)
    requires TotalOn(less, multiset(xs))
    ensures Sorted(less, Sort(less, xs))
  {
    if xs != [] {
      HeadAndTail(xs);
      SubTotal(less, multiset(xs[1..]), multiset(xs));
      SortSorted(less, xs[1..]);
      SortElements(less, xs[1..]);
      InsertSorted(less, xs[0], Sort(less, xs[1..]));
    }
  }

  /** A ranking: nobody is ahead of somebody who is ahead of them, and who is ahead of one is ahead of all behind it. */
  ghost predicate Ranks<T(!new)>(less: (T, T) -> bool) {
    && (forall a, b :: less(a, b) ==> !less(b, a))
    && (forall a, b, c :: less(a, c) ==> less(a, b) || less(b, c))
  }

  /** The head of a sorted sequence is one that nobody is ahead of. */
  lemma {:induction false} HeadUnbeaten<T(!new)>(less: (T, T) -> bool, xs: seq<T>)
    requires Ranks(less) && xs != []
    ensures Sort(less, xs) != [] && Sort(less, xs)[0] in xs
    ensures forall x :: x in xs ==> !less(x, Sort(less, xs)[0])
  {
    assert xs == [xs[0]] + xs[1..];
    if xs[1..] != [] {
      HeadUnbeaten(less, xs[1..]);
    }
  }

  lemma {:induction false} InsertRanked<T(!new)>(less: (T, T) -> bool, x: T, xs: seq<T>)
    requires Ranks(less) && Sorted(less, xs)
    ensures Sorted(less, Insert(less, x, xs))
  {
    if xs != [] && less(xs[0], x) {
      var out := Insert(less, x, xs[1..]);
      InsertRanked(less, x, xs[1..]);
      InsertElements(less, x, xs[1..]);
      forall j | 0 <= j < |out| ensures !less(out[j], xs[0]) {
        assert out[j] in multiset(out);
        assert out[j] == x || out[j] in xs[1..];
      }
    } else if xs != [] {
      forall j | 0 <= j < |xs| ensures !less(xs[j], x) {
        assert j > 0 ==> !less(xs[j], xs[0]);
      }
    }
  }

  /** Sorting by a ranking puts nobody behind somebody they are ahead of, ties included. */
  lemma {:induction false} RankedSorted<T(!new)>(less: (T, T) -> bool, xs: seq<T>)
    requires Ranks(less)
    ensures Sorted(less, Sort(less, xs))
  {
    if xs != [] {
      RankedSorted(less, xs[1..]);
      InsertRanked(less, xs[0], Sort(less, xs[1..]));
    }
  }

  lemma SameHead<T>(less: (T, T) -> bool, xs: seq<T>, ys: seq<T>)
    requires xs != [] && ys != [] && multiset(xs) == multiset(ys)
    requires TotalOn(less, multiset(xs))
    requires Sorted(less, xs) && Sorted(less, ys)
    ensures xs[0] == ys[0]
  {
    HeadAndTail(xs);
    HeadAndTail(ys);
    var i :| 0 <= i < |xs| && xs[i] == ys[0];
    var j :| 0 <= j < |ys| && ys[j] == xs[0];
    assert i > 0 ==> !less(xs[i], xs[0]);
    assert j > 0 ==> !less(ys[j], ys[0]);
  }

  lemma SameTails<T>(xs: seq<T>, ys: seq<T>)
    requires xs != [] && ys != [] && xs[0] == ys[0] && multiset(xs) == multiset(ys)
    ensures multiset(xs[1..]) == multiset(ys[1..])
  {
    HeadAndTail(xs);
    HeadAndTail(ys);
    assert multiset(xs[1..]) == multiset(xs) - multiset{xs[0]};
    assert multiset(ys[1..]) == multiset(ys) - multiset{ys[0]};
  }

  lemma SameLength<T>(xs: seq<T>, ys: seq<T>)
    requires multiset(xs) == multiset(ys)
    ensures |xs| == |ys|
  {
    assert |multiset(xs)| == |xs| && |multiset(ys)| == |ys|;
  }

  /** A sequence sorted by a strict total order is the only such arrangement of its elements. */
  lemma {:induction false} SortedUnique<T>(less: (T, T) -> bool, xs: seq<T>, ys: seq<T>)
    requires multiset(xs) == multiset(ys)
    requires TotalOn(less, multiset(xs))
    requires Sorted(less, xs) && Sorted(less, ys)
    ensures xs == ys
    decreases |xs|
  {
    hide TotalOn, Sorted;
    SameLength(xs, ys);
    if xs != [] {
      SameHead(less, xs, ys);
      SameTails(xs, ys);
      SortedTail(less, xs);
      assert TotalOn(less, multiset(ys));
      SortedTail(less, ys);
      SortedUnique(less, xs[1..], ys[1..]);
      forall i | 0 <= i < |xs| ensures xs[i] == ys[i] {
        assert i > 0 ==> xs[i] == xs[1..][i - 1] && ys[i] == ys[1..][i - 1];
      }
    }
  }

  /** The order in which elements are enumerated does not matter to a total-order sort. */
  lemma SortPermutationInvariant<T>(less: (T, T) -> bool, xs: seq<T>, ys: seq<T>)
    requires multiset(xs) == multiset(ys)
    requires TotalOn(less, multiset(xs))
    ensures Sort(less, xs) == Sort(less, ys)
  {
    SortElements(less, xs);
    SortElements(less, ys);
    SortSorted(less, xs);
    SortSorted(less, ys);
    SortedUnique(less, Sort(less, xs), Sort(less, ys));
  }

  /** Every element survives sorting and every sorted element was there before. */
  lemma SortMembers<T>(less: (T, T) -> bool, xs: seq<T>)
    ensures forall x :: x in Sort(less, xs) <==> x in xs
  {
    SortElements(less, xs);
    forall x ensures x in Sort(less, xs) <==> x in xs {
      assert x in Sort(less, xs) <==> x in multiset(Sort(less, xs));
      assert x in xs <==> x in multiset(xs);
    }
  }

  /** Code-point order on strings, as Python compares them. */
  predicate StringLess(a: string, b: string) {
    if b == "" then false
    else if a == "" then true
    else if a[0] != b[0] then a[0] < b[0]
    else StringLess(a[1..], b[1..])
  }

  lemma {:induction false} StringTotal(a: string, b: string)
    ensures !StringLess(a, a)
    ensures a != b ==> StringLess(a, b) || StringLess(b, a)
    ensures !(StringLess(a, b) && StringLess(b, a))
  {
    if a != "" {
      StringTotal(a[1..], if b == "" then "" else b[1..]);
      if b != "" && a[0] == b[0] {
        assert a == [a[0]] + a[1..] && b == [b[0]] + b[1..];
      }
    }
  }

  lemma {:induction false} StringTransitive(a: string, b: string, c: string)
    requires StringLess(a, b) && StringLess(b, c)
    ensures StringLess(a, c)
  {
    if a != "" && a[0] == b[0] && b[0] == c[0] {
      StringTransitive(a[1..], b[1..], c[1..]);
    }
  }

  /** The elements of a set built in order of first appearance. */
  function Dedup(ids: seq<string>): (d: seq<string>)
    ensures forall x :: x in d <==> x in ids
    ensures forall i, j :: 0 <= i < j < |d| ==> d[i] != d[j]
  {
    if ids == [] then []
    else
      var init, last := Dedup(ids[..|ids| - 1]), ids[|ids| - 1];
      assert ids == ids[..|ids| - 1] + [last];
      if last in init then init else init + [last]
  }

  /** `sorted(set(ids))` */
  function SortedSet(ids: seq<string>): seq<string> {
    Sort(StringLess, Dedup(ids))
  }

  lemma {:induction false} DedupAppend(ids: seq<string>, x: string)
    ensures Dedup(ids + [x]) == if x in ids then Dedup(ids) else Dedup(ids) + [x]
  {
    assert (ids + [x])[..|ids|] == ids;
  }

  lemma SortedSetMembers(ids: seq<string>)
    ensures forall x :: x in SortedSet(ids) <==> x in ids
    ensures SortedSet(ids) == [] <==> ids == []
    ensures forall i, j :: 0 <= i < j < |SortedSet(ids)| ==> SortedSet(ids)[i] != SortedSet(ids)[j]
  {
    var d, s := Dedup(ids), SortedSet(ids);
    SortMembers(StringLess, d);
    SortElements(StringLess, d);
    if ids != [] {
      assert ids[0] in d;
    }
    if d != [] {
      assert d[0] in ids;
    }
    NoRepeats(d);
    forall i, j | 0 <= i < j < |s| ensures s[i] != s[j] {
      RepeatCounts(s, i, j);
    }
  }

  lemma {:induction false} NoRepeats<T>(s: seq<T>)
    requires forall i, j :: 0 <= i < j < |s| ==> s[i] != s[j]
    ensures forall x :: multiset(s)[x] <= 1
  {
    if s != [] {
      NoRepeats(s[1..]);
      HeadAndTail(s);
      assert s[0] !in s[1..];
    }
  }

  lemma RepeatCounts<T>(s: seq<T>, i: nat, j: nat)
    requires i < j < |s|
    ensures s[i] == s[j] ==> multiset(s)[s[i]] >= 2
  {
    assert s == s[..j] + s[j..];
    assert s[i] in s[..j] && s[j] in s[j..];
    assert multiset(s) == multiset(s[..j]) + multiset(s[j..]);
  }
}

/** Lexicographic order on strings, and sorting lists of strings. */
module TextOrder {

  predicate StrLe(a: string, b: string) {
    a == "" || (b != "" && (a[0] < b[0] || (a[0] == b[0] && StrLe(a[1..], b[1..]))))
  }

  /** Dictionary order: at the first difference the smaller character comes first, and a prefix before what it
      begins. */
  lemma {:induction false} StrLeMeans(a: string, b: string)
    ensures StrLe(a, b) <==>
            exists n :: 0 <= n <= |a| && n <= |b| && a[..n] == b[..n] && (n == |a| || (n < |b| && a[n] < b[n]))
  {
    if a != "" && b != "" && a[0] == b[0] {
      StrLeMeans(a[1..], b[1..]);
      if StrLe(a, b) {
        var n :| 0 <= n <= |a| - 1 && n <= |b| - 1 && a[1..][..n] == b[1..][..n]
                 && (n == |a| - 1 || (n < |b| - 1 && a[1..][n] < b[1..][n]));
        assert a[..n + 1] == [a[0]] + a[1..][..n] && b[..n + 1] == [b[0]] + b[1..][..n];
        assert n + 1 <= |a|;
      }
      if n :| 0 <= n <= |a| && n <= |b| && a[..n] == b[..n] && (n == |a| || (n < |b| && a[n] < b[n])) {
        assert n > 0;
        assert a[1..][..n - 1] == a[..n][1..] && b[1..][..n - 1] == b[..n][1..];
        assert n - 1 == |a[1..]| || (n - 1 < |b[1..]| && a[1..][n - 1] < b[1..][n - 1]);
      }
    } else if a == "" || (b != "" && a[0] < b[0]) {
      assert a[..0] == b[..0];
    } else if n :| 0 <= n <= |a| && n <= |b| && a[..n] == b[..n] && (n == |a| || (n < |b| && a[n] < b[n])) {
      assert n > 0 ==> a[..n][0] == b[..n][0];
    }
  }

  lemma {:induction false} StrLeTotal(a: string, b: string)
    ensures StrLe(a, b) || StrLe(b, a)
  {
    if a != "" && b != "" && a[0] == b[0] {
      StrLeTotal(a[1..], b[1..]);
    }
  }

  lemma {:induction false} StrLeAntisymmetric(a: string, b: string)
    requires StrLe(a, b) && StrLe(b, a)
    ensures a == b
  {
    if a != "" && b != "" {
      StrLeAntisymmetric(a[1..], b[1..]);
      assert a == [a[0]] + a[1..] && b == [b[0]] + b[1..];
    }
  }

  lemma {:induction false} StrLeTransitive(a: string, b: string, c: string)
    requires StrLe(a, b) && StrLe(b, c)
    ensures StrLe(a, c)
  {
    if a != "" && a[0] == b[0] && b[0] == c[0] {
      StrLeTransitive(a[1..], b[1..], c[1..]);
    }
  }

  ghost predicate IsSorted(xs: seq<string>) {
    forall i, j :: 0 <= i < j < |xs| ==> StrLe(xs[i], xs[j])
  }

  function Insert(x: string, xs: seq<string>): seq<string> {
    if xs == [] || StrLe(x, xs[0]) then [x] + xs else [xs[0]] + Insert(x, xs[1..])
  }

  function Sort(xs: seq<string>): seq<string> {
    if xs == [] then [] else Insert(xs[0], Sort(xs[1..]))
  }

  lemma {:induction false} InsertKeeps(x: string, xs: seq<string>)
    ensures multiset(Insert(x, xs)) == multiset(xs) + multiset{x}
    ensures IsSorted(xs) ==> IsSorted(Insert(x, xs))
  {
    if xs == [] || StrLe(x, xs[0]) {
      if IsSorted(xs) && xs != [] {
        BelowAll(x, xs);
        SortedCons(x, xs);
      }
    } else {
      InsertKeeps(x, xs[1..]);
      assert xs == [xs[0]] + xs[1..];
      if IsSorted(xs) {
        StrLeTotal(x, xs[0]);
        AboveHead(x, xs, Insert(x, xs[1..]));
        SortedCons(xs[0], Insert(x, xs[1..]));
      }
    }
  }

  lemma BelowAll(x: string, xs: seq<string>)
    requires xs != [] && IsSorted(xs) && StrLe(x, xs[0])
    ensures forall j :: 0 <= j < |xs| ==> StrLe(x, xs[j])
  {
    forall j | 0 < j < |xs| ensures StrLe(x, xs[j]) {
      StrLeTransitive(x, xs[0], xs[j]);
    }
  }

  lemma AboveHead(x: string, xs: seq<string>, rest: seq<string>)
    requires xs != [] && IsSorted(xs) && StrLe(xs[0], x)
    requires multiset(rest) == multiset(xs[1..]) + multiset{x}
    ensures forall j :: 0 <= j < |rest| ==> StrLe(xs[0], rest[j])
  {
    forall j | 0 <= j < |rest| ensures StrLe(xs[0], rest[j]) {
      assert rest[j] in multiset(rest);
      if rest[j] != x {
        assert rest[j] in xs[1..];
      }
    }
  }

  lemma SortedCons(x: string, xs: seq<string>)
    requires IsSorted(xs) && forall j :: 0 <= j < |xs| ==> StrLe(x, xs[j])
    ensures IsSorted([x] + xs)
  {
  }

  lemma {:induction false} SortSorts(xs: seq<string>)
    ensures multiset(Sort(xs)) == multiset(xs) && IsSorted(Sort(xs))
  {
    if xs != [] {
      SortSorts(xs[1..]);
      InsertKeeps(xs[0], Sort(xs[1..]));
      assert xs == [xs[0]] + xs[1..];
    }
  }

  lemma HeadIsLeast(xs: seq<string>, y: string)
    requires IsSorted(xs) && y in multiset(xs)
    ensures StrLe(xs[0], y)
  {
    assert y in xs;
    var j :| 0 <= j < |xs| && xs[j] == y;
    StrLeTotal(y, y);
  }

  lemma {:induction false} SortedUnique(xs: seq<string>, ys: seq<string>)
    requires IsSorted(xs) && IsSorted(ys) && multiset(xs) == multiset(ys)
    ensures xs == ys
    decreases |xs|
  {
    assert |xs| == |multiset(xs)| == |multiset(ys)| == |ys|;
    if xs != [] {
      assert xs[0] in multiset(xs) && ys[0] in multiset(ys);
      HeadIsLeast(xs, ys[0]);
      HeadIsLeast(ys, xs[0]);
      StrLeAntisymmetric(xs[0], ys[0]);
      TailMultiset(xs);
      TailMultiset(ys);
      SortedUnique(xs[1..], ys[1..]);
      assert xs == [xs[0]] + xs[1..] && ys == [ys[0]] + ys[1..];
    }
  }

  lemma TailMultiset(xs: seq<string>)
    requires xs != []
    ensures multiset(xs[1..]) == multiset(xs) - multiset{xs[0]}
  {
    assert xs == [xs[0]] + xs[1..];
  }

  /** Sorted forms agree exactly when the lists agree up to order. */
  lemma SortForgetsOnlyOrder(xs: seq<string>, ys: seq<string>)
    ensures Sort(xs) == Sort(ys) <==> multiset(xs) == multiset(ys)
  {
    SortSorts(xs);
    SortSorts(ys);
    if multiset(xs) == multiset(ys) {
      SortedUnique(Sort(xs), Sort(ys));
    }
  }
}

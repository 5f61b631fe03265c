/** The order of `String`'s `Ord` and the `sort` of a `Vec<String>`.

    Rust compares strings by their UTF-8 bytes, which orders them exactly as
    comparing their code points one by one does; a Dafny `char` is a code
    point, so `Le` is lexicographic order on characters. The standard
    library's sorting algorithm is not modelled: `Sort` is one function with
    the same contract (sorted, and a permutation of its input), and
    `SortedPermutationUnique` shows that this contract fixes the result. */
module StringOrder {

  /** `a <= b` for Rust strings. */
  predicate Le(a: string, b: string)
    decreases |a|
  {
    a == [] || (b != [] && (a[0] < b[0] || (a[0] == b[0] && Le(a[1..], b[1..]))))
  }

  lemma {:induction false} LeReflexive(a: string)
    ensures Le(a, a)
    decreases |a|
  {
    if a != [] { LeReflexive(a[1..]); }
  }

  lemma {:induction false} LeTotal(a: string, b: string)
    ensures Le(a, b) || Le(b, a)
    decreases |a|
  {
    if a != [] && b != [] && a[0] == b[0] { LeTotal(a[1..], b[1..]); }
  }

  lemma {:induction false} LeTransitive(a: string, b: string, c: string)
    requires Le(a, b) && Le(b, c)
    ensures Le(a, c)
    decreases |a|
  {
    if a != [] && a[0] == b[0] && b[0] == c[0] { LeTransitive(a[1..], b[1..], c[1..]); }
  }

  lemma {:induction false} LeAntisymmetric(a: string, b: string)
    requires Le(a, b) && Le(b, a)
    ensures a == b
    decreases |a|
  {
    if a != [] {
      LeAntisymmetric(a[1..], b[1..]);
      assert a == [a[0]] + a[1..] && b == [b[0]] + b[1..];
    }
  }

  predicate Sorted(s: seq<string>) {
    forall i, j :: 0 <= i < j < |s| ==> Le(s[i], s[j])
  }

  /** A sorted sequence stays sorted under a new head that is below all its elements. */
  lemma ConsSorted(h: string, s: seq<string>)
    requires Sorted(s) && forall y :: y in s ==> Le(h, y)
    ensures Sorted([h] + s)
  {
    var r := [h] + s;
    forall i, j | 0 <= i < j < |r| ensures Le(r[i], r[j]) {
      if i == 0 { assert r[j] == s[j - 1]; assert s[j - 1] in s; } else { assert r[i] == s[i - 1] && r[j] == s[j - 1]; }
    }
  }

  /** Inserting into a sorted sequence. */
  function Insert(x: string, s: seq<string>): (r: seq<string>)
    requires Sorted(s)
    ensures Sorted(r) && multiset(r) == multiset(s) + multiset{x}
    decreases |s|
  {
    if s == [] then [x]
    else if Le(x, s[0]) then
      (forall y | y in s ensures Le(x, y) {
         var i :| 0 <= i < |s| && s[i] == y;
         if i > 0 { LeTransitive(x, s[0], y); }
       }
       ConsSorted(x, s);
       [x] + s)
    else
      assert s == [s[0]] + s[1..];
      var rest := Insert(x, s[1..]);
      (LeTotal(x, s[0]);
       forall y | y in rest ensures Le(s[0], y) {
         assert y in multiset(rest);
         if y != x { assert y in multiset(s[1..]); var i :| 0 <= i < |s[1..]| && s[1..][i] == y; assert y == s[i + 1]; }
       }
       ConsSorted(s[0], rest);
       [s[0]] + rest)
  }

  /** Sorting: the result is sorted and a permutation of the input. */
  function Sort(s: seq<string>): (r: seq<string>)
    ensures Sorted(r) && multiset(r) == multiset(s)
    decreases |s|
  {
    if s == [] then []
    else
      assert s == [s[0]] + s[1..];
      Insert(s[0], Sort(s[1..]))
  }

  lemma SortedTail(s: seq<string>)
    requires Sorted(s) && s != []
    ensures Sorted(s[1..])
  {
    forall i, j | 0 <= i < j < |s| - 1 ensures Le(s[1..][i], s[1..][j]) {
      assert s[1..][i] == s[i + 1] && s[1..][j] == s[j + 1];
    }
  }

  /** The least element of a sorted sequence is its head. */
  lemma HeadIsLeast(s: seq<string>, y: string)
    requires Sorted(s) && y in s
    ensures Le(s[0], y)
  {
    var i :| 0 <= i < |s| && s[i] == y;
    if i == 0 { LeReflexive(y); }
  }

  lemma TailsPermutation(a: seq<string>, b: seq<string>)
    requires a != [] && b != [] && a[0] == b[0] && multiset(a) == multiset(b)
    ensures multiset(a[1..]) == multiset(b[1..])
  {
    assert a == [a[0]] + a[1..] && b == [b[0]] + b[1..];
    assert multiset(a) == multiset{a[0]} + multiset(a[1..]);
    assert multiset(b) == multiset{b[0]} + multiset(b[1..]);
    forall y ensures multiset(a[1..])[y] == multiset(b[1..])[y] {
      assert multiset(a)[y] == multiset{a[0]}[y] + multiset(a[1..])[y];
      assert multiset(b)[y] == multiset{b[0]}[y] + multiset(b[1..])[y];
    }
  }

  /** Two sorted permutations of the same strings are equal: a sorting
      function's contract determines its result. */
  lemma {:induction false} SortedPermutationUnique(a: seq<string>, b: seq<string>)
    requires Sorted(a) && Sorted(b) && multiset(a) == multiset(b)
    ensures a == b
    decreases |a|
  {
    if a != [] {
      assert a[0] in multiset(b);
      assert b[0] in multiset(a);
      HeadIsLeast(a, b[0]);
      HeadIsLeast(b, a[0]);
      LeAntisymmetric(a[0], b[0]);
      TailsPermutation(a, b);
      SortedTail(a);
      SortedTail(b);
      SortedPermutationUnique(a[1..], b[1..]);
      assert a == [a[0]] + a[1..] && b == [b[0]] + b[1..];
    } else {
      assert |multiset(b)| == 0;
    }
  }
}

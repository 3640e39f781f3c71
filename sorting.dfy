/**
 * The orderings the table conversion sorts by, and a sort. Python compares strings code
 * point by code point and lists element by element, the shorter of two lists that agree
 * being the smaller; `Lex` lifts an order on elements to that order on sequences.
 * `Sort` stands for the built-in `sorted`: with a strict total order it has one possible
 * result, the ascending arrangement of the same elements.
 */
module Sorting {

  /** `lt` is a strict total order. */
  ghost predicate StrictTotal<T(!new)>(lt: (T, T) -> bool)
  {
    && (forall x :: !lt(x, x))
    && (forall x, y, z :: lt(x, y) && lt(y, z) ==> lt(x, z))
    && (forall x, y :: lt(x, y) || x == y || lt(y, x))
  }

  predicate CharLess(a: char, b: char)
  {
    a < b
  }

  lemma CharLessTotal()
    ensures StrictTotal(CharLess)
  {
  }

  /** Python's comparison of two lists whose elements are compared by `lt`. */
  predicate LexLess<T(==)>(lt: (T, T) -> bool, a: seq<T>, b: seq<T>)
    decreases |a|
  {
    if |a| == 0 then |b| > 0
    else if |b| == 0 then false
    else if lt(a[0], b[0]) then true
    else if a[0] == b[0] then LexLess(lt, a[1..], b[1..])
    else false
  }

  function Lex<T(==)>(lt: (T, T) -> bool): (seq<T>, seq<T>) -> bool
  {
    (a: seq<T>, b: seq<T>) => LexLess(lt, a, b)
  }

  lemma {:induction false} LexIrreflexive<T(!new)>(lt: (T, T) -> bool, a: seq<T>)
    requires StrictTotal(lt)
    ensures !LexLess(lt, a, a)
    decreases |a|
  {
    if |a| > 0 {
      LexIrreflexive(lt, a[1..]);
    }
  }

  lemma {:induction false} LexTransitive<T(!new)>(lt: (T, T) -> bool, a: seq<T>, b: seq<T>, c: seq<T>)
    requires StrictTotal(lt) && LexLess(lt, a, b) && LexLess(lt, b, c)
    ensures LexLess(lt, a, c)
    decreases |a|
  {
    if |a| > 0 && |b| > 0 && |c| > 0 && a[0] == b[0] && b[0] == c[0] {
      LexTransitive(lt, a[1..], b[1..], c[1..]);
    }
  }

  lemma {:induction false} LexTrichotomous<T(!new)>(lt: (T, T) -> bool, a: seq<T>, b: seq<T>)
    requires StrictTotal(lt)
    ensures LexLess(lt, a, b) || a == b || LexLess(lt, b, a)
    decreases |a|
  {
    if |a| > 0 && |b| > 0 && a[0] == b[0] {
      LexTrichotomous(lt, a[1..], b[1..]);
      if a[1..] == b[1..] {
        assert a == [a[0]] + a[1..] && b == [b[0]] + b[1..];
      }
    }
  }

  /** Comparing lists element by element is again a strict total order. */
  lemma LexTotal<T(!new)>(lt: (T, T) -> bool)
    requires StrictTotal(lt)
    ensures StrictTotal(Lex(lt))
  {
    forall a: seq<T> ensures !Lex(lt)(a, a) {
      LexIrreflexive(lt, a);
    }
    forall a: seq<T>, b: seq<T>, c: seq<T> | Lex(lt)(a, b) && Lex(lt)(b, c) ensures Lex(lt)(a, c) {
      LexTransitive(lt, a, b, c);
    }
    forall a: seq<T>, b: seq<T> ensures Lex(lt)(a, b) || a == b || Lex(lt)(b, a) {
      LexTrichotomous(lt, a, b);
    }
  }

  /** Python's order on strings, on lists of symbols, and on lists of stores. */
  function StringLess(): (string, string) -> bool
  {
    Lex(CharLess)
  }

  function SymbolsLess(): (seq<string>, seq<string>) -> bool
  {
    Lex(StringLess())
  }

  function StoresLess(): (seq<seq<string>>, seq<seq<string>>) -> bool
  {
    Lex(SymbolsLess())
  }

  lemma OrdersTotal()
    ensures StrictTotal(StringLess()) && StrictTotal(SymbolsLess()) && StrictTotal(StoresLess())
  {
    CharLessTotal();
    LexTotal(CharLess);
    LexTotal(StringLess());
    LexTotal(SymbolsLess());
  }

  /** No element is smaller than the one before it. */
  ghost predicate Sorted<T>(lt: (T, T) -> bool, s: seq<T>)
  {
    forall i | 0 < i < |s| :: !lt(s[i], s[i - 1])
  }

  function Insert<T>(lt: (T, T) -> bool, x: T, s: seq<T>): (r: seq<T>)
    ensures multiset(r) == multiset(s) + multiset{x}
    ensures r[0] == x || r[0] == s[0]
  {
    if s == [] then [x]
    else if lt(s[0], x) then
      assert s == [s[0]] + s[1..];
      [s[0]] + Insert(lt, x, s[1..])
    else
      [x] + s
  }

  lemma {:induction false} InsertSorted<T(!new)>(lt: (T, T) -> bool, x: T, s: seq<T>)
    requires StrictTotal(lt) && Sorted(lt, s)
    ensures Sorted(lt, Insert(lt, x, s))
  {
    if s != [] && lt(s[0], x) {
      var rest := Insert(lt, x, s[1..]);
      InsertSorted(lt, x, s[1..]);
      assert !lt(rest[0], s[0]) by {
        if rest[0] != x {
          assert rest[0] == s[1];
        }
      }
      assert Insert(lt, x, s) == [s[0]] + rest;
    }
  }

  /** `sorted`: the elements of `s` in ascending order. */
  function Sort<T(!new)>(lt: (T, T) -> bool, s: seq<T>): (r: seq<T>)
    requires StrictTotal(lt)
    ensures multiset(r) == multiset(s)
    ensures Sorted(lt, r)
  {
    if s == [] then []
    else
      assert s == s[..|s| - 1] + [s[|s| - 1]];
      var init := Sort(lt, s[..|s| - 1]);
      InsertSorted(lt, s[|s| - 1], init);
      Insert(lt, s[|s| - 1], init)
  }

  /** The first element of a sorted sequence is a least one. */
  lemma {:induction false} SortedFirst<T(!new)>(lt: (T, T) -> bool, s: seq<T>, k: nat)
    requires StrictTotal(lt) && Sorted(lt, s) && k < |s|
    ensures !lt(s[k], s[0])
  {
    if k > 0 {
      SortedFirst(lt, s, k - 1);
    }
  }

  /** Two sorted arrangements of the same elements are the same: `sorted` forgets the input order. */
  lemma {:induction false} SortedUnique<T(!new)>(lt: (T, T) -> bool, a: seq<T>, b: seq<T>)
    requires StrictTotal(lt) && Sorted(lt, a) && Sorted(lt, b) && multiset(a) == multiset(b)
    ensures a == b
    decreases |a|
  {
    if a != [] {
      assert a[0] in multiset(b);
      assert b[0] in multiset(a);
      var i :| 0 <= i < |b| && b[i] == a[0];
      var j :| 0 <= j < |a| && a[j] == b[0];
      SortedFirst(lt, a, j);
      SortedFirst(lt, b, i);
      assert a[0] == b[0];
      TailMultiset(a, b);
      assert Sorted(lt, a[1..]) && Sorted(lt, b[1..]);
      SortedUnique(lt, a[1..], b[1..]);
      assert a == [a[0]] + a[1..] && b == [b[0]] + b[1..];
    } else {
      assert |b| == |multiset(b)| == 0;
    }
  }

  /** Sorting depends only on which elements there are, and how many times each occurs. */
  lemma SortPermutation<T(!new)>(lt: (T, T) -> bool, a: seq<T>, b: seq<T>)
    requires StrictTotal(lt) && multiset(a) == multiset(b)
    ensures Sort(lt, a) == Sort(lt, b)
  {
    SortedUnique(lt, Sort(lt, a), Sort(lt, b));
  }

  /** Each element is smaller than the next one. */
  ghost predicate Ascending<T>(lt: (T, T) -> bool, s: seq<T>)
  {
    forall i | 0 < i < |s| :: lt(s[i - 1], s[i])
  }

  /** Sorting elements that are pairwise distinct puts them in strictly ascending order. */
  lemma SortDistinct<T(!new)>(lt: (T, T) -> bool, s: seq<T>)
    requires StrictTotal(lt)
    requires forall i, j | 0 <= i < j < |s| :: s[i] != s[j]
    ensures Ascending(lt, Sort(lt, s))
  {
    var r := Sort(lt, s);
    forall i | 0 < i < |r| ensures lt(r[i - 1], r[i]) {
      if r[i - 1] == r[i] {
        DistinctCount(s, r[i]);
        AdjacentTwice(r, i);
        assert false;
      }
    }
  }

  lemma TailMultiset<T>(a: seq<T>, b: seq<T>)
    requires a != [] && b != [] && a[0] == b[0] && multiset(a) == multiset(b)
    ensures multiset(a[1..]) == multiset(b[1..])
  {
    assert a == [a[0]] + a[1..] && b == [b[0]] + b[1..];
    assert multiset(a[1..]) == multiset(a) - multiset{a[0]};
    assert multiset(b[1..]) == multiset(b) - multiset{b[0]};
  }

  lemma AdjacentTwice<T>(r: seq<T>, i: nat)
    requires 0 < i < |r| && r[i - 1] == r[i]
    ensures multiset(r)[r[i]] >= 2
  {
    assert r == r[..i - 1] + [r[i - 1]] + [r[i]] + r[i + 1..];
  }

  lemma {:induction false} DistinctCount<T>(s: seq<T>, x: T)
    requires forall i, j | 0 <= i < j < |s| :: s[i] != s[j]
    ensures multiset(s)[x] <= 1
    decreases |s|
  {
    if s != [] {
      var t := s[..|s| - 1];
      assert s == t + [s[|s| - 1]];
      DistinctCount(t, x);
      if s[|s| - 1] == x {
        assert x !in t;
      }
    }
  }

  /** `sorted` on a set, given its elements listed once each: the elements in strictly ascending order. */
  lemma SortSet<T(!new)>(lt: (T, T) -> bool, s: seq<T>, elems: set<T>)
    requires StrictTotal(lt)
    requires forall i, j | 0 <= i < j < |s| :: s[i] != s[j]
    requires forall x :: x in s <==> x in elems
    ensures Ascending(lt, Sort(lt, s))
    ensures forall x :: x in Sort(lt, s) <==> x in elems
  {
    SortDistinct(lt, s);
    forall x ensures x in Sort(lt, s) <==> x in s {
      assert x in multiset(Sort(lt, s)) <==> x in multiset(s);
    }
  }

  /** A strictly ascending sequence holds each element once. */
  lemma {:induction false} AscendingDistinct<T(!new)>(lt: (T, T) -> bool, s: seq<T>)
    requires StrictTotal(lt) && Ascending(lt, s)
    ensures forall i, j | 0 <= i < j < |s| :: s[i] != s[j]
    decreases |s|
  {
    if |s| > 1 {
      var t := s[1..];
      assert Ascending(lt, t);
      AscendingDistinct(lt, t);
      forall j | 1 <= j < |s| ensures lt(s[0], s[j]) {
        AscendingFirst(lt, s, j);
      }
      forall i, j | 0 <= i < j < |s| ensures s[i] != s[j] {
        if i > 0 {
          assert s[i] == t[i - 1] && s[j] == t[j - 1];
        }
      }
    }
  }

  lemma {:induction false} AscendingFirst<T(!new)>(lt: (T, T) -> bool, s: seq<T>, j: nat)
    requires StrictTotal(lt) && Ascending(lt, s) && 0 < j < |s|
    ensures lt(s[0], s[j])
  {
    if j > 1 {
      AscendingFirst(lt, s, j - 1);
    }
  }
}

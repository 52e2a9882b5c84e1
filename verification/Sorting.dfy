/** slices.Sort followed by slices.Compact, and why its result depends on the set of elements alone. */
module Sorting {
  ghost predicate StrictOrder<T(!new)>(less: (T, T) -> bool) {
    && (forall a :: !less(a, a))
    && (forall a, b, c :: less(a, b) && less(b, c) ==> less(a, c))
    && (forall a, b :: a == b || less(a, b) || less(b, a))
  }

  ghost predicate Increasing<T>(less: (T, T) -> bool, s: seq<T>) {
    forall i, j | 0 <= i < j < |s| :: less(s[i], s[j])
  }

  ghost function Elements<T>(s: seq<T>): set<T> {
    set x | x in s
  }

  /** Inserts x into an increasing sequence, dropping it if it is already there. */
  function Insert<T(==, !new)>(less: (T, T) -> bool, s: seq<T>, x: T): (r: seq<T>)
    requires StrictOrder(less) && Increasing(less, s)
    ensures Increasing(less, r) && Elements(r) == Elements(s) + {x}
  {
    if s == [] then [x]
    else if x == s[0] then s
    else if less(x, s[0]) then
      assert Elements([x] + s) == Elements(s) + {x};
      [x] + s
    else
      var rest := Insert(less, s[1..], x);
      assert forall y | y in rest :: less(s[0], y) by {
        forall y | y in rest ensures less(s[0], y) {
          assert y in Elements(rest);
        }
      }
      assert Elements(s) == {s[0]} + Elements(s[1..]) by { assert s == [s[0]] + s[1..]; }
      assert Elements([s[0]] + rest) == {s[0]} + Elements(rest);
      [s[0]] + rest
  }

  method SortCompact<T(==, !new)>(less: (T, T) -> bool, s: seq<T>) returns (r: seq<T>)
    requires StrictOrder(less)
    ensures Increasing(less, r) && Elements(r) == Elements(s)
  {
    r := [];
    for i := 0 to |s|
      invariant Increasing(less, r) && Elements(r) == Elements(s[..i])
    {
      r := Insert(less, r, s[i]);
      assert s[..i + 1] == s[..i] + [s[i]];
    }
    assert s[..|s|] == s;
  }

  /** The increasing listing of a finite set. */
  ghost function SortedOf<T(!new)>(less: (T, T) -> bool, elems: set<T>): (r: seq<T>)
    requires StrictOrder(less)
    ensures Increasing(less, r) && Elements(r) == elems
  {
    if elems == {} then [] else
      var x :| x in elems;
      Insert(less, SortedOf(less, elems - {x}), x)
  }

  /** An increasing sequence is determined by its elements, so the order of the input to a sort never shows. */
  lemma {:induction false} IncreasingUnique<T(!new)>(less: (T, T) -> bool, a: seq<T>, b: seq<T>)
    requires StrictOrder(less) && Increasing(less, a) && Increasing(less, b)
    requires Elements(a) == Elements(b)
    ensures a == b
  {
    assert b != [] ==> b[0] in Elements(b);
    if a != [] {
      assert a[0] in Elements(a);
      assert b != [];
      assert b[0] in Elements(b);
      var i :| 0 <= i < |a| && a[i] == b[0];
      var j :| 0 <= j < |b| && b[j] == a[0];
      assert a[0] == b[0];
      Tail(less, a);
      Tail(less, b);
      IncreasingUnique(less, a[1..], b[1..]);
    }
  }

  lemma Tail<T(!new)>(less: (T, T) -> bool, a: seq<T>)
    requires StrictOrder(less) && Increasing(less, a) && a != []
    ensures Increasing(less, a[1..]) && Elements(a[1..]) == Elements(a) - {a[0]}
  {
  }

  predicate IntLess(a: int, b: int) {
    a < b
  }

  /** Go's string comparison: lexicographic. */
  predicate StringLess(a: string, b: string) {
    b != "" && (a == "" || a[0] < b[0] || (a[0] == b[0] && StringLess(a[1..], b[1..])))
  }

  lemma StringLessIsStrictOrder()
    ensures StrictOrder(StringLess)
  {
    forall a ensures !StringLess(a, a) { StringLessIrreflexive(a); }
    forall a, b, c | StringLess(a, b) && StringLess(b, c) ensures StringLess(a, c) { StringLessTransitive(a, b, c); }
    forall a, b ensures a == b || StringLess(a, b) || StringLess(b, a) { StringLessTotal(a, b); }
  }

  lemma StringLessIrreflexive(a: string)
    ensures !StringLess(a, a)
  {}

  lemma {:induction false} StringLessTransitive(a: string, b: string, c: string)
    requires StringLess(a, b) && StringLess(b, c)
    ensures StringLess(a, c)
  {
    if a != "" && a[0] == b[0] && b[0] == c[0] {
      StringLessTransitive(a[1..], b[1..], c[1..]);
    }
  }

  lemma {:induction false} StringLessTotal(a: string, b: string)
    ensures a == b || StringLess(a, b) || StringLess(b, a)
  {
    if a != "" && b != "" && a[0] == b[0] {
      StringLessTotal(a[1..], b[1..]);
      assert a == [a[0]] + a[1..] && b == [b[0]] + b[1..];
    }
  }

  // ---- sorted names ----

  ghost predicate SortedStrings(s: seq<string>) {
    Increasing(StringLess, s)
  }

  ghost function SortedNames(names: set<string>): (r: seq<string>)
    ensures SortedStrings(r) && Elements(r) == names
  {
    StringLessIsStrictOrder();
    SortedOf(StringLess, names)
  }

  method SortStrings(s: seq<string>) returns (r: seq<string>)
    ensures SortedStrings(r) && Elements(r) == Elements(s)
  {
    StringLessIsStrictOrder();
    r := SortCompact(StringLess, s);
  }

  lemma SortedNamesUnique(s: seq<string>)
    requires SortedStrings(s)
    ensures s == SortedNames(Elements(s))
  {
    StringLessIsStrictOrder();
    IncreasingUnique(StringLess, s, SortedNames(Elements(s)));
  }

  /** A sorted listing has no duplicates, and dropping its tail keeps it sorted. */
  lemma SortedPrefix(s: seq<string>, i: nat)
    requires SortedStrings(s) && i < |s|
    ensures SortedStrings(s[..i]) && s[i] !in Elements(s[..i])
    ensures Elements(s[..i + 1]) == Elements(s[..i]) + {s[i]}
  {
    StringLessIsStrictOrder();
    assert s[..i + 1] == s[..i] + [s[i]];
  }

  /** Keeping one more element that comes after all the kept ones keeps the selection sorted. */
  lemma SortedAppend(s: seq<string>, i: nat, kept: seq<string>)
    requires SortedStrings(s) && i < |s| && SortedStrings(kept)
    requires Elements(kept) <= Elements(s[..i])
    ensures SortedStrings(kept + [s[i]]) && Elements(kept + [s[i]]) == Elements(kept) + {s[i]}
  {
    forall j | 0 <= j < |kept| ensures StringLess(kept[j], s[i]) {
      assert kept[j] in Elements(kept);
      var l :| 0 <= l < i && s[l] == kept[j];
    }
  }
}

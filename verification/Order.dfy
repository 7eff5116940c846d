/** The orders in which SQLite and Go compare strings and bytes, and Go's sort of
    distinct values. */
module Order {

  /** A strict total order. */
  ghost predicate Strict<T(!new)>(before: (T, T) -> bool) {
    && (forall a :: !before(a, a))
    && (forall a, b :: a == b || before(a, b) || before(b, a))
    && (forall a, b, c :: before(a, b) && before(b, c) ==> before(a, c))
  }

  /** The lexicographic order over an order of elements. */
  predicate LessBy<T(==)>(before: (T, T) -> bool, a: seq<T>, b: seq<T>) {
    b != [] && (a == [] || before(a[0], b[0]) || (a[0] == b[0] && LessBy(before, a[1..], b[1..])))
  }

  lemma {:induction false} LessByIsTransitive<T(!new)>(before: (T, T) -> bool, a: seq<T>, b: seq<T>, c: seq<T>)
    requires Strict(before) && LessBy(before, a, b) && LessBy(before, b, c)
    ensures LessBy(before, a, c)
    decreases |a|
  {
    if a != [] && a[0] == b[0] && b[0] == c[0] {
      LessByIsTransitive(before, a[1..], b[1..], c[1..]);
    }
  }

  lemma {:induction false} LessByIsTotal<T(!new)>(before: (T, T) -> bool, a: seq<T>, b: seq<T>)
    requires Strict(before)
    ensures !LessBy(before, a, a)
    ensures a == b || LessBy(before, a, b) || LessBy(before, b, a)
    decreases |a|
  {
    if a != [] && b != [] {
      LessByIsTotal(before, a[1..], b[1..]);
      assert a == [a[0]] + a[1..] && b == [b[0]] + b[1..];
    } else if a != [] {
      LessByIsTotal(before, a[1..], []);
    }
  }

  const CHARS: (char, char) -> bool := (a, b) => a < b

  /** Byte-wise order of identifiers. */
  predicate Less(a: string, b: string) {
    LessBy(CHARS, a, b)
  }

  lemma LessIsTransitive(a: string, b: string, c: string)
    requires Less(a, b) && Less(b, c)
    ensures Less(a, c)
  {
    LessByIsTransitive(CHARS, a, b, c);
  }

  lemma LessIsTotal(a: string, b: string)
    ensures !Less(a, a)
    ensures a == b || Less(a, b) || Less(b, a)
  {
    LessByIsTotal(CHARS, a, b);
  }

  // ------------------------------------------------------------------ sorting

  ghost predicate Distinct<T>(s: seq<T>) {
    forall i, j :: 0 <= i < j < |s| ==> s[i] != s[j]
  }

  /** Strictly ascending: sorted and without duplicates. */
  ghost predicate Ascending<T>(before: (T, T) -> bool, s: seq<T>) {
    forall i, j :: 0 <= i < j < |s| ==> before(s[i], s[j])
  }

  function Insert<T(!new)>(before: (T, T) -> bool, s: seq<T>, x: T): (r: seq<T>)
    ensures forall y :: y in r <==> y in s || y == x
  {
    if s == [] then [x]
    else if before(s[0], x) then [s[0]] + Insert(before, s[1..], x)
    else [x] + s
  }

  lemma {:induction false} InsertAscends<T(!new)>(before: (T, T) -> bool, s: seq<T>, x: T)
    requires Strict(before) && Ascending(before, s) && x !in s
    ensures Ascending(before, Insert(before, s, x))
  {
    if s != [] {
      if before(s[0], x) {
        InsertAscends(before, s[1..], x);
        Prepends(before, s[0], Insert(before, s[1..], x));
      } else {
        assert before(x, s[0]);
        forall y | y in s ensures before(x, y) {
          var i :| 0 <= i < |s| && s[i] == y;
        }
        Prepends(before, x, s);
      }
    }
  }

  lemma Prepends<T>(before: (T, T) -> bool, x: T, s: seq<T>)
    requires Ascending(before, s) && forall y :: y in s ==> before(x, y)
    ensures Ascending(before, [x] + s)
  {
  }

  function Sorted<T(!new)>(before: (T, T) -> bool, s: seq<T>): (r: seq<T>)
    ensures forall y :: y in r <==> y in s
  {
    if s == [] then [] else Insert(before, Sorted(before, s[1..]), s[0])
  }

  lemma {:induction false} SortedAscends<T(!new)>(before: (T, T) -> bool, s: seq<T>)
    requires Strict(before) && Distinct(s)
    ensures Ascending(before, Sorted(before, s))
  {
    if s != [] {
      SortedAscends(before, s[1..]);
      InsertAscends(before, Sorted(before, s[1..]), s[0]);
    }
  }
}

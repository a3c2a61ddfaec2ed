/**
 * Value-level helpers shared by the controllers: optional values, Java's
 * string ordering, an insertion sort standing for `Collections.sort`,
 * the `contains`-then-`add` de-duplication idiom, and the Commons Lang
 * `StringUtils.join` / `StringUtils.split` pair.
 */
module Collections {

  datatype Option<+T> = None | Some(value: T) {
    function GetOr(default: T): T {
      match this
      case Some(v) => v
      case None => default
    }
  }

  /** A value or the exception the source would throw instead. */
  datatype Result<+T, +E> = Ok(value: T) | Err(error: E)

  /** A missing value is dereferenced (`NullPointerException`). */
  datatype NullPointer = NullPointer

  // ---------------------------------------------------------------------
  // Orders and sorting
  // ---------------------------------------------------------------------

  /** `le` is total and transitive, as a `Comparator` used by `Collections.sort` must be. */
  ghost predicate TotalPreorder<T(!new)>(le: (T, T) -> bool) {
    && (forall x, y :: le(x, y) || le(y, x))
    && (forall x, y, z :: le(x, y) && le(y, z) ==> le(x, z))
  }

  predicate SortedBy<T>(s: seq<T>, le: (T, T) -> bool) {
    forall i, j :: 0 <= i < j < |s| ==> le(s[i], s[j])
  }

  /** Inserts `x` after every element that does not come strictly after it. */
  function Insert<T>(x: T, s: seq<T>, le: (T, T) -> bool): seq<T> {
    if s == [] then [x]
    else if !le(s[0], x) then [x] + s
    else [s[0]] + Insert(x, s[1..], le)
  }

  lemma {:induction false} InsertSorted<T(!new)>(x: T, s: seq<T>, le: (T, T) -> bool)
    requires TotalPreorder(le) && SortedBy(s, le)
    ensures SortedBy(Insert(x, s, le), le)
    ensures multiset(Insert(x, s, le)) == multiset(s) + multiset{x}
    ensures |Insert(x, s, le)| == |s| + 1
    decreases |s|
  {
    if s == [] {
    } else if !le(s[0], x) {
      InsertBeforeHead(x, s, le);
    } else {
      InsertSorted(x, s[1..], le);
      InsertAfterHead(x, s, le);
    }
  }

  /** `x` goes in front of a head that comes strictly after it. */
  lemma InsertBeforeHead<T(!new)>(x: T, s: seq<T>, le: (T, T) -> bool)
    requires TotalPreorder(le) && SortedBy(s, le) && s != [] && !le(s[0], x)
    ensures SortedBy(Insert(x, s, le), le)
    ensures multiset(Insert(x, s, le)) == multiset(s) + multiset{x}
    ensures |Insert(x, s, le)| == |s| + 1
  {
    assert le(x, s[0]);
    forall k | 0 <= k < |s| ensures le(x, s[k]) {
      if k > 0 { assert le(s[0], s[k]); }
    }
    SortedCons(x, s, le);
  }

  /** A head that does not come after `x` stays in front of the insertion into the tail. */
  lemma InsertAfterHead<T(!new)>(x: T, s: seq<T>, le: (T, T) -> bool)
    requires SortedBy(s, le) && s != [] && le(s[0], x)
    requires SortedBy(Insert(x, s[1..], le), le)
    requires multiset(Insert(x, s[1..], le)) == multiset(s[1..]) + multiset{x}
    requires |Insert(x, s[1..], le)| == |s|
    ensures SortedBy(Insert(x, s, le), le)
    ensures multiset(Insert(x, s, le)) == multiset(s) + multiset{x}
    ensures |Insert(x, s, le)| == |s| + 1
  {
    var rest := Insert(x, s[1..], le);
    forall y | y in s[1..] ensures le(s[0], y) {
      var j :| 0 <= j < |s[1..]| && s[1..][j] == y;
      assert s[j + 1] == y;
    }
    HeadBeforeAll(s[0], x, s[1..], rest, le);
    SortedCons(s[0], rest, le);
    assert s == [s[0]] + s[1..];
  }

  /** A head that comes before every element of a sorted sequence keeps it sorted. */
  lemma SortedCons<T>(h: T, s: seq<T>, le: (T, T) -> bool)
    requires SortedBy(s, le) && forall k :: 0 <= k < |s| ==> le(h, s[k])
    ensures SortedBy([h] + s, le)
  {
    forall i, j | 0 <= i < j < |[h] + s| ensures le(([h] + s)[i], ([h] + s)[j]) {
      if i == 0 {
        assert ([h] + s)[j] == s[j - 1];
      } else {
        assert ([h] + s)[i] == s[i - 1] && ([h] + s)[j] == s[j - 1];
      }
    }
  }

  /** What comes before `x` and every element of `s` comes before every element of a permutation of them. */
  lemma HeadBeforeAll<T>(h: T, x: T, s: seq<T>, rest: seq<T>, le: (T, T) -> bool)
    requires le(h, x) && forall y :: y in s ==> le(h, y)
    requires multiset(rest) == multiset(s) + multiset{x}
    ensures forall k :: 0 <= k < |rest| ==> le(h, rest[k])
  {
    forall k | 0 <= k < |rest| ensures le(h, rest[k]) {
      assert rest[k] in multiset(rest);
      if rest[k] != x {
        assert rest[k] in multiset(s);
      }
    }
  }

  /** Sorts by `le`, as `Collections.sort(list, comparator)` does. */
  function Sort<T(!new)>(s: seq<T>, le: (T, T) -> bool): (r: seq<T>)
    requires TotalPreorder(le)
    ensures SortedBy(r, le)
    ensures multiset(r) == multiset(s)
    ensures |r| == |s|
  {
    if s == [] then []
    else
      var sorted := Sort(s[..|s| - 1], le);
      InsertSorted(s[|s| - 1], sorted, le);
      assert s == s[..|s| - 1] + [s[|s| - 1]];
      assert multiset(s) == multiset(s[..|s| - 1]) + multiset{s[|s| - 1]};
      Insert(s[|s| - 1], sorted, le)
  }

  // ---------------------------------------------------------------------
  // Java's String.compareTo: lexicographic by character, a proper prefix first
  // ---------------------------------------------------------------------

  predicate LexLe(a: string, b: string)
    decreases |a|
  {
    |a| == 0 || (|b| > 0 && (a[0] < b[0] || (a[0] == b[0] && LexLe(a[1..], b[1..]))))
  }

  lemma {:induction false} LexLeTotal(a: string, b: string)
    ensures LexLe(a, b) || LexLe(b, a)
    decreases |a|
  {
    if |a| > 0 && |b| > 0 && a[0] == b[0] {
      LexLeTotal(a[1..], b[1..]);
    }
  }

  lemma {:induction false} LexLeTransitive(a: string, b: string, c: string)
    requires LexLe(a, b) && LexLe(b, c)
    ensures LexLe(a, c)
    decreases |a|
  {
    if |a| > 0 && a[0] == b[0] && b[0] == c[0] {
      LexLeTransitive(a[1..], b[1..], c[1..]);
    }
  }

  lemma {:induction false} LexLeAntisymmetric(a: string, b: string)
    requires LexLe(a, b) && LexLe(b, a)
    ensures a == b
    decreases |a|
  {
    if |a| > 0 {
      LexLeAntisymmetric(a[1..], b[1..]);
      assert a == [a[0]] + a[1..] && b == [b[0]] + b[1..];
    }
  }

  lemma LexLeIsTotalPreorder()
    ensures TotalPreorder(LexLe)
  {
    forall x, y ensures LexLe(x, y) || LexLe(y, x) { LexLeTotal(x, y); }
    forall x, y, z | LexLe(x, y) && LexLe(y, z) ensures LexLe(x, z) { LexLeTransitive(x, y, z); }
  }

  /** `Collections.sort` on a list of strings. */
  function SortStrings(s: seq<string>): (r: seq<string>)
    ensures SortedBy(r, LexLe) && multiset(r) == multiset(s) && |r| == |s|
  {
    LexLeIsTotalPreorder();
    Sort(s, LexLe)
  }

  // ---------------------------------------------------------------------
  // De-duplication: `if (!result.contains(x)) result.add(x)`
  // ---------------------------------------------------------------------

  /** The set of elements of a list. */
  function Elements<T>(s: seq<T>): set<T> {
    set x | x in s
  }

  predicate NoDuplicates<T(==)>(s: seq<T>) {
    forall i, j :: 0 <= i < j < |s| ==> s[i] != s[j]
  }

  /** Appends `x` unless it is already present. */
  function AddIfAbsent<T(==)>(acc: seq<T>, x: T): (r: seq<T>)
    ensures NoDuplicates(acc) ==> NoDuplicates(r)
    ensures Elements(r) == Elements(acc) + {x}
    ensures x in acc ==> r == acc
    ensures x !in acc ==> r == acc + [x]
  {
    if x in acc then acc else acc + [x]
  }

  /** The first occurrence of every element, in order: what a contains-then-add loop builds from `s` after `acc`. */
  function AddAllIfAbsent<T(==)>(acc: seq<T>, s: seq<T>): (r: seq<T>)
    decreases |s|
  {
    if s == [] then acc else AddAllIfAbsent(AddIfAbsent(acc, s[0]), s[1..])
  }

  lemma {:induction false} AddAllIfAbsentContents<T>(acc: seq<T>, s: seq<T>)
    requires NoDuplicates(acc)
    ensures NoDuplicates(AddAllIfAbsent(acc, s))
    ensures Elements(AddAllIfAbsent(acc, s)) == Elements(acc) + Elements(s)
    decreases |s|
  {
    if s != [] {
      var next := AddIfAbsent(acc, s[0]);
      AddAllIfAbsentContents(next, s[1..]);
      ElementsOfCons(s);
      assert AddAllIfAbsent(acc, s) == AddAllIfAbsent(next, s[1..]);
    }
  }

  lemma ElementsOfCons<T>(s: seq<T>)
    requires s != []
    ensures Elements(s) == {s[0]} + Elements(s[1..])
  {
    assert s == [s[0]] + s[1..];
  }

  lemma AddAllIfAbsentStep<T>(acc: seq<T>, s: seq<T>, i: nat)
    requires i < |s|
    ensures AddAllIfAbsent(acc, s[..i + 1]) == AddIfAbsent(AddAllIfAbsent(acc, s[..i]), s[i])
    decreases i
  {
    if i == 0 {
      assert s[..1][1..] == [];
    } else {
      assert s[..i + 1][1..] == s[1..][..i];
      assert s[..i][1..] == s[1..][..i - 1];
      AddAllIfAbsentStep(AddIfAbsent(acc, s[0]), s[1..], i - 1);
    }
  }

  lemma {:induction false} AddAllIfAbsentAppend<T>(acc: seq<T>, a: seq<T>, b: seq<T>)
    ensures AddAllIfAbsent(acc, a + b) == AddAllIfAbsent(AddAllIfAbsent(acc, a), b)
    decreases |a|
  {
    if a != [] {
      assert (a + b)[0] == a[0] && (a + b)[1..] == a[1..] + b;
      AddAllIfAbsentAppend(AddIfAbsent(acc, a[0]), a[1..], b);
    } else {
      assert a + b == b;
    }
  }

  /** Two lists sorted strictly (sorted, no duplicates) with the same elements are the same list. */
  lemma {:induction false} StrictlySortedUnique(a: seq<string>, b: seq<string>)
    requires SortedBy(a, LexLe) && NoDuplicates(a)
    requires SortedBy(b, LexLe) && NoDuplicates(b)
    requires Elements(a) == Elements(b)
    ensures a == b
    decreases |a|
  {
    if a != [] {
      assert a[0] in Elements(a);
    }
    if b != [] {
      assert b[0] in Elements(b);
    }
    if a != [] && b != [] {
      assert a[0] in b && b[0] in a;
      var i :| 0 <= i < |b| && b[i] == a[0];
      var j :| 0 <= j < |a| && a[j] == b[0];
      LexLeTotal(a[0], a[0]);
      assert LexLe(b[0], a[0]) by { assert i == 0 || LexLe(b[0], b[i]); }
      assert LexLe(a[0], b[0]) by { assert j == 0 || LexLe(a[0], a[j]); }
      LexLeAntisymmetric(a[0], b[0]);
      ElementsOfCons(a);
      ElementsOfCons(b);
      assert a[0] !in Elements(a[1..]) && b[0] !in Elements(b[1..]);
      StrictlySortedUnique(a[1..], b[1..]);
      assert a == [a[0]] + a[1..] && b == [b[0]] + b[1..];
    }
  }

  /** A permutation of a list without duplicates has none either. */
  lemma PermutationNoDuplicates<T>(a: seq<T>, b: seq<T>)
    requires multiset(a) == multiset(b) && NoDuplicates(a)
    ensures NoDuplicates(b)
  {
    forall i, j | 0 <= i < j < |b| ensures b[i] != b[j] {
      if b[i] == b[j] {
        assert b == b[..j] + b[j..];
        assert b[i] in multiset(b[..j]) by { assert b[..j][i] == b[i]; }
        assert b[j] in multiset(b[j..]) by { assert b[j..][0] == b[j]; }
        assert multiset(b)[b[i]] == multiset(b[..j])[b[i]] + multiset(b[j..])[b[i]];
        DuplicateCount(a, b[i]);
      }
    }
  }

  lemma DuplicateCount<T>(s: seq<T>, x: T)
    requires NoDuplicates(s)
    ensures multiset(s)[x] <= 1
  {
    if s != [] {
      assert s == [s[0]] + s[1..];
      DuplicateCount(s[1..], x);
      assert s[0] !in s[1..];
    }
  }

  lemma SortKeepsElements(s: seq<string>)
    ensures Elements(SortStrings(s)) == Elements(s)
  {
    var r := SortStrings(s);
    forall x ensures x in r <==> x in s {
      assert x in r <==> x in multiset(r);
      assert x in s <==> x in multiset(s);
    }
  }

  // ---------------------------------------------------------------------
  // StringUtils.join / StringUtils.split
  // ---------------------------------------------------------------------

  /**
   * The distinct strings of `s` in ascending order: what a contains-then-add
   * loop followed by `Collections.sort` leaves.
   */
  function SortedDistinct(s: seq<string>): (r: seq<string>)
    ensures SortedBy(r, LexLe) && NoDuplicates(r) && Elements(r) == Elements(s)
  {
    AddAllIfAbsentContents([], s);
    var d := AddAllIfAbsent([], s);
    PermutationNoDuplicates(d, SortStrings(d));
    SortKeepsElements(d);
    SortStrings(d)
  }

  /** The sorted distinct list depends only on which strings occur, not on their order or repetitions. */
  lemma SortedDistinctDependsOnElements(a: seq<string>, b: seq<string>)
    requires Elements(a) == Elements(b)
    ensures SortedDistinct(a) == SortedDistinct(b)
  {
    StrictlySortedUnique(SortedDistinct(a), SortedDistinct(b));
  }


  /** `StringUtils.join(items, sep)`: the items with `sep` between consecutive ones. */
  function Join(items: seq<string>, sep: string): (r: string)
    ensures items == [] ==> r == ""
    ensures |items| == 1 ==> r == items[0]
  {
    if items == [] then ""
    else if |items| == 1 then items[0]
    else items[0] + sep + Join(items[1..], sep)
  }

  /**
   * `StringUtils.split(s, c)`: the maximal runs of characters other than `c`;
   * adjacent separators yield no empty token.
   */
  function Split(s: string, c: char): (tokens: seq<string>)
    ensures forall t :: t in tokens ==> t != "" && c !in t
    decreases |s|
  {
    SplitFrom(s, c, "")
  }

  /** Splits `s`, where `current` holds the characters of the token being read. */
  function SplitFrom(s: string, c: char, current: string): (tokens: seq<string>)
    requires c !in current
    ensures forall t :: t in tokens ==> t != "" && c !in t
    decreases |s|
  {
    if s == [] then (if current == "" then [] else [current])
    else if s[0] == c then
      (if current == "" then [] else [current]) + SplitFrom(s[1..], c, "")
    else SplitFrom(s[1..], c, current + [s[0]])
  }

  lemma {:induction false} SplitFromToken(t: string, rest: string, c: char, current: string)
    requires c !in current && c !in t
    requires rest == [] || rest[0] == c
    ensures SplitFrom(t + rest, c, current) == SplitFrom(rest, c, current + t)
    decreases |t|
  {
    if t != [] {
      assert (t + rest)[0] == t[0] && (t + rest)[1..] == t[1..] + rest;
      SplitFromToken(t[1..], rest, c, current + [t[0]]);
      assert current + [t[0]] + t[1..] == current + t;
    } else {
      assert t + rest == rest && current + t == current;
    }
  }

  /** Splitting a join recovers the items when none is empty or holds the separator. */
  lemma {:induction false} SplitJoin(items: seq<string>, c: char)
    requires forall t :: t in items ==> t != "" && c !in t
    ensures Split(Join(items, [c]), c) == items
    decreases |items|
  {
    if items == [] {
    } else if |items| == 1 {
      SplitFromToken(items[0], "", c, "");
      assert items[0] + "" == items[0] && "" + items[0] == items[0];
      assert Join(items, [c]) == items[0];
      assert SplitFrom("", c, items[0]) == [items[0]];
    } else {
      var tail := Join(items[1..], [c]);
      assert Join(items, [c]) == items[0] + ([c] + tail);
      SplitFromToken(items[0], [c] + tail, c, "");
      assert "" + items[0] == items[0];
      assert ([c] + tail)[0] == c && ([c] + tail)[1..] == tail;
      assert SplitFrom([c] + tail, c, items[0]) == [items[0]] + SplitFrom(tail, c, "");
      SplitJoin(items[1..], c);
      assert items == [items[0]] + items[1..];
    }
  }
}

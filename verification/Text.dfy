/** Go's strings.Split, strings.Join and slices.Sort on strings: what the role comparison of
    the reconciler and the admission webhook rely on.  A string is a sequence of characters;
    its order is the lexicographic one. */
module Text {

  // ---------------------------------------------------------------- split and join

  /** strings.Split for a separator of one character: never empty. */
  function Split(s: string, c: char): (parts: seq<string>)
    ensures |parts| >= 1
  {
    if s == "" then [""]
    else if s[0] == c then [""] + Split(s[1..], c)
    else var rest := Split(s[1..], c); [[s[0]] + rest[0]] + rest[1..]
  }

  function Join(parts: seq<string>, c: char): string {
    if |parts| == 0 then ""
    else if |parts| == 1 then parts[0]
    else parts[0] + [c] + Join(parts[1..], c)
  }

  ghost predicate FreeOf(parts: seq<string>, c: char) {
    forall i | 0 <= i < |parts| :: c !in parts[i]
  }

  lemma {:induction false} SplitWhole(s: string, c: char)
    requires c !in s
    ensures Split(s, c) == [s]
  {
    if s != "" {
      SplitWhole(s[1..], c);
      assert s == [s[0]] + s[1..];
    }
  }

  lemma {:induction false} SplitAppend(a: string, b: string, c: char)
    ensures Split(a + [c] + b, c) == Split(a, c) + Split(b, c)
  {
    var all := a + [c] + b;
    if a == "" {
      assert all[1..] == b;
    } else {
      SplitAppend(a[1..], b, c);
      assert all[0] == a[0] && all[1..] == a[1..] + [c] + b;
      ConsSplit(a[0], Split(a[1..], c), Split(b, c));
    }
  }

  /** Putting a character in front of the first part commutes with appending parts. */
  lemma ConsSplit(x: char, front: seq<string>, back: seq<string>)
    requires front != []
    ensures [[x] + (front + back)[0]] + (front + back)[1..] == ([[x] + front[0]] + front[1..]) + back
    ensures [""] + (front + back) == ([""] + front) + back
  {
    assert (front + back)[1..] == front[1..] + back;
  }

  lemma {:induction false} SplitAfterJoin(parts: seq<string>, c: char)
    requires parts != [] && FreeOf(parts, c)
    ensures Split(Join(parts, c), c) == parts
  {
    SplitWhole(parts[0], c);
    if |parts| > 1 {
      SplitAfterJoin(parts[1..], c);
      SplitAppend(parts[0], Join(parts[1..], c), c);
      assert parts == [parts[0]] + parts[1..];
    }
  }

  lemma {:induction false} JoinAfterSplit(s: string, c: char)
    ensures Join(Split(s, c), c) == s
  {
    if s != "" {
      JoinAfterSplit(s[1..], c);
      var rest := Split(s[1..], c);
      assert s == [s[0]] + s[1..];
      if s[0] == c {
        assert Split(s, c)[1..] == rest;
      } else {
        assert ([[s[0]] + rest[0]] + rest[1..])[1..] == rest[1..];
        if |rest| > 1 {
          assert [s[0]] + (rest[0] + [c] + Join(rest[1..], c)) == ([s[0]] + rest[0]) + [c] + Join(rest[1..], c);
        }
      }
    }
  }

  /** Joining keeps non-empty lists of separator-free strings apart. */
  lemma JoinInjective(a: seq<string>, b: seq<string>, c: char)
    requires a != [] && b != [] && FreeOf(a, c) && FreeOf(b, c)
    ensures Join(a, c) == Join(b, c) <==> a == b
  {
    SplitAfterJoin(a, c);
    SplitAfterJoin(b, c);
  }

  lemma {:induction false} JoinKeepsOut(parts: seq<string>, c: char, d: char)
    requires c != d && FreeOf(parts, d)
    ensures d !in Join(parts, c)
  {
    if |parts| > 1 {
      JoinKeepsOut(parts[1..], c, d);
    }
  }

  lemma {:induction false} OnePartIff(s: string, c: char)
    ensures |Split(s, c)| == 1 <==> c !in s
    ensures Split(s, c)[0] == s <==> c !in s
    ensures c !in Split(s, c)[0]
  {
    if s != "" {
      OnePartIff(s[1..], c);
      assert s == [s[0]] + s[1..];
    }
  }

  /** All parts of all these strings. */
  function Atoms(parts: seq<string>, c: char): seq<string> {
    if parts == [] then [] else Split(parts[0], c) + Atoms(parts[1..], c)
  }

  lemma {:induction false} SplitOfJoin(parts: seq<string>, c: char)
    requires parts != []
    ensures Split(Join(parts, c), c) == Atoms(parts, c)
  {
    if |parts| > 1 {
      SplitOfJoin(parts[1..], c);
      SplitAppend(parts[0], Join(parts[1..], c), c);
    } else {
      assert Atoms(parts[1..], c) == [];
    }
  }

  /** Separator-free strings are among the atoms, and without others there are no more atoms than strings. */
  lemma {:induction false} AtomsCount(parts: seq<string>, c: char)
    ensures |Atoms(parts, c)| >= |parts|
    ensures |Atoms(parts, c)| == |parts| <==> FreeOf(parts, c)
    ensures forall x | x in parts && c !in x :: x in Atoms(parts, c)
  {
    if parts != [] {
      hide Split;
      AtomsCount(parts[1..], c);
      OnePartIff(parts[0], c);
      assert parts == [parts[0]] + parts[1..];
      assert FreeOf(parts, c) <==> c !in parts[0] && FreeOf(parts[1..], c);
      if c !in parts[0] { SplitWhole(parts[0], c); }
      forall x | x in parts && c !in x ensures x in Atoms(parts, c) {
        if x == parts[0] { assert Split(x, c)[0] == x; }
      }
    }
  }

  lemma {:induction false} JoinHasAll(parts: seq<string>, c: char, d: char)
    requires d !in Join(parts, c)
    ensures FreeOf(parts, d)
  {
    if |parts| > 1 {
      JoinHasAll(parts[1..], c, d);
      assert parts == [parts[0]] + parts[1..];
    }
  }

  // ---------------------------------------------------------------- sorting

  predicate Before(a: string, b: string) {
    a == "" || (b != "" && (a[0] < b[0] || (a[0] == b[0] && Before(a[1..], b[1..]))))
  }

  lemma {:induction false} BeforeTotal(a: string, b: string)
    ensures Before(a, b) || Before(b, a)
    ensures Before(a, b) && Before(b, a) ==> a == b
  {
    if a != "" && b != "" {
      BeforeTotal(a[1..], b[1..]);
      assert a == [a[0]] + a[1..] && b == [b[0]] + b[1..];
    }
  }

  lemma {:induction false} BeforeTransitive(a: string, b: string, c: string)
    requires Before(a, b) && Before(b, c)
    ensures Before(a, c)
  {
    if a != "" && b != "" && c != "" && a[0] == b[0] == c[0] {
      BeforeTransitive(a[1..], b[1..], c[1..]);
    }
  }

  function Insert(x: string, s: seq<string>): seq<string> {
    if s == [] || Before(x, s[0]) then [x] + s else [s[0]] + Insert(x, s[1..])
  }

  /** slices.Sort: any sorting algorithm gives this result, by SortedIsUnique. */
  function Sort(s: seq<string>): seq<string> {
    if s == [] then [] else Insert(s[0], Sort(s[1..]))
  }

  ghost predicate Ordered(s: seq<string>) {
    forall i, j | 0 <= i <= j < |s| :: Before(s[i], s[j])
  }

  lemma {:induction false} InsertSorts(x: string, s: seq<string>)
    requires Ordered(s)
    ensures Ordered(Insert(x, s)) && multiset(Insert(x, s)) == multiset{x} + multiset(s)
  {
    BeforeTotal(x, x);
    if s != [] {
      assert s == [s[0]] + s[1..];
      if Before(x, s[0]) {
        forall j | 0 <= j < |s| ensures Before(x, s[j]) { BeforeTransitive(x, s[0], s[j]); }
      } else {
        BeforeTotal(x, s[0]);
        InsertSorts(x, s[1..]);
        var r := Insert(x, s[1..]);
        forall j | 0 <= j < |r| ensures Before(s[0], r[j]) {
          assert r[j] in multiset(r);
          assert r[j] == x || r[j] in multiset(s[1..]);
        }
      }
    }
  }

  lemma {:induction false} SortSorts(s: seq<string>)
    ensures Ordered(Sort(s)) && multiset(Sort(s)) == multiset(s)
  {
    if s != [] {
      SortSorts(s[1..]);
      InsertSorts(s[0], Sort(s[1..]));
      assert s == [s[0]] + s[1..];
    }
  }

  lemma {:induction false} SortedIsUnique(a: seq<string>, b: seq<string>)
    requires Ordered(a) && Ordered(b) && multiset(a) == multiset(b)
    ensures a == b
  {
    assert |a| == |multiset(a)| == |multiset(b)| == |b|;
    if a != [] {
      assert a[0] in multiset(b) && b[0] in multiset(a);
      BeforeTotal(a[0], b[0]);
      assert a == [a[0]] + a[1..] && b == [b[0]] + b[1..];
      assert multiset(a[1..]) == multiset(a) - multiset{a[0]};
      assert multiset(b[1..]) == multiset(b) - multiset{b[0]};
      SortedIsUnique(a[1..], b[1..]);
    }
  }

  /** Sorting forgets the order and nothing else. */
  lemma {:induction false} SortForgetsOrder(a: seq<string>, b: seq<string>)
    ensures Sort(a) == Sort(b) <==> multiset(a) == multiset(b)
  {
    SortSorts(a);
    SortSorts(b);
    if multiset(a) == multiset(b) {
      SortedIsUnique(Sort(a), Sort(b));
    }
  }
}

/** Three-way comparisons and sorting, as Go's cmp and slices packages give them. */
module Ordering {

  /** Total and transitive: what slices.SortFunc asks of its comparison. */
  ghost predicate IsPreorder<T(!new)>(cmp: (T, T) -> int) {
    && (forall x, y :: cmp(x, y) <= 0 || cmp(y, x) <= 0)
    && (forall x, y, z :: cmp(x, y) <= 0 && cmp(y, z) <= 0 ==> cmp(x, z) <= 0)
  }

  /** A preorder whose ties are equalities and whose sign flips with its arguments. */
  ghost predicate IsOrder<T(!new)>(cmp: (T, T) -> int) {
    && (forall x, y :: cmp(x, y) == 0 <==> x == y)
    && (forall x, y :: cmp(x, y) < 0 <==> cmp(y, x) > 0)
    && (forall x, y, z :: cmp(x, y) <= 0 && cmp(y, z) <= 0 ==> cmp(x, z) <= 0)
  }

  ghost predicate Sorted<T>(cmp: (T, T) -> int, s: seq<T>) {
    forall i, j :: 0 <= i < j < |s| ==> cmp(s[i], s[j]) <= 0
  }

  /** slices.SortFunc: callers may rely on a sorted permutation; elements that tie keep their order here. */
  function Sort<T(!new)>(cmp: (T, T) -> int, s: seq<T>): (r: seq<T>)
    requires IsPreorder(cmp)
    ensures Sorted(cmp, r) && multiset(r) == multiset(s)
  {
    if |s| == 0 then []
    else
      assert s == s[..|s| - 1] + [s[|s| - 1]];
      Insert(cmp, s[|s| - 1], Sort(cmp, s[..|s| - 1]))
  }

  function Insert<T(!new)>(cmp: (T, T) -> int, x: T, s: seq<T>): (r: seq<T>)
    requires IsPreorder(cmp) && Sorted(cmp, s)
    ensures Sorted(cmp, r) && multiset(r) == multiset(s) + multiset{x}
  {
    hide Sorted;
    if |s| == 0 then
      SortedSingle(cmp, x);
      [x]
    else
      if cmp(s[0], x) <= 0 then
        HeadIsLeast(cmp, s);
        var rest := Insert(cmp, x, s[1..]);
        PrependHead(cmp, x, s, rest);
        [s[0]] + rest
      else
        PrependLeast(cmp, x, s);
        [x] + s
  }

  /** A sorted sequence is left alone. */
  lemma {:induction false} SortKeepsSorted<T(!new)>(cmp: (T, T) -> int, s: seq<T>)
    requires IsPreorder(cmp) && Sorted(cmp, s)
    ensures Sort(cmp, s) == s
  {
    hide Sorted, IsPreorder, Insert;
    if |s| > 0 {
      var n := |s| - 1;
      assert s == s[..n] + [s[n]];
      LastIsGreatest(cmp, s[..n], s[n]);
      SortKeepsSorted(cmp, s[..n]);
      InsertLast(cmp, s[n], s[..n]);
    }
  }

  /** Every element comes no later than x. */
  ghost predicate NoneAfter<T>(cmp: (T, T) -> int, s: seq<T>, x: T) {
    forall i :: 0 <= i < |s| ==> cmp(s[i], x) <= 0
  }

  lemma LastIsGreatest<T>(cmp: (T, T) -> int, s: seq<T>, last: T)
    requires Sorted(cmp, s + [last])
    ensures Sorted(cmp, s) && NoneAfter(cmp, s, last)
  {
    var all := s + [last];
    assert all[|s|] == last && forall i :: 0 <= i < |s| ==> all[i] == s[i];
  }

  lemma {:induction false} InsertLast<T(!new)>(cmp: (T, T) -> int, x: T, s: seq<T>)
    requires IsPreorder(cmp) && Sorted(cmp, s) && NoneAfter(cmp, s, x)
    ensures Insert(cmp, x, s) == s + [x]
  {
    hide Sorted, IsPreorder, NoneAfter, Insert;
    if |s| > 0 {
      SortedTail(cmp, s);
      NoneAfterTail(cmp, s, x);
      InsertLast(cmp, x, s[1..]);
      InsertLater(cmp, x, s);
      assert s == [s[0]] + s[1..];
    } else {
      InsertOnly(cmp, x, s);
    }
  }

  lemma SortedTail<T>(cmp: (T, T) -> int, s: seq<T>)
    requires Sorted(cmp, s) && |s| > 0
    ensures Sorted(cmp, s[1..])
  {
  }

  lemma NoneAfterTail<T>(cmp: (T, T) -> int, s: seq<T>, x: T)
    requires NoneAfter(cmp, s, x) && |s| > 0
    ensures NoneAfter(cmp, s[1..], x) && cmp(s[0], x) <= 0
  {
  }

  lemma InsertOnly<T(!new)>(cmp: (T, T) -> int, x: T, s: seq<T>)
    requires IsPreorder(cmp) && Sorted(cmp, s) && |s| == 0
    ensures Insert(cmp, x, s) == [x]
  {
  }

  lemma InsertLater<T(!new)>(cmp: (T, T) -> int, x: T, s: seq<T>)
    requires IsPreorder(cmp) && Sorted(cmp, s) && |s| > 0 && cmp(s[0], x) <= 0
    ensures Sorted(cmp, s[1..]) && Insert(cmp, x, s) == [s[0]] + Insert(cmp, x, s[1..])
  {
    hide IsPreorder;
    SortedTail(cmp, s);
  }

  lemma PrependLeast<T(!new)>(cmp: (T, T) -> int, x: T, s: seq<T>)
    requires IsPreorder(cmp) && Sorted(cmp, s) && |s| > 0 && cmp(x, s[0]) <= 0
    ensures Sorted(cmp, [x] + s)
  {
    hide Sorted;
    HeadIsLeast(cmp, s);
    PrependSorted(cmp, x, s);
  }

  lemma PrependHead<T(!new)>(cmp: (T, T) -> int, x: T, s: seq<T>, rest: seq<T>)
    requires IsPreorder(cmp) && Sorted(cmp, s) && |s| > 0 && cmp(s[0], x) <= 0
    requires Sorted(cmp, rest) && multiset(rest) == multiset(s[1..]) + multiset{x}
    ensures Sorted(cmp, [s[0]] + rest) && multiset([s[0]] + rest) == multiset(s) + multiset{x}
  {
    hide Sorted;
    HeadIsLeast(cmp, s);
    assert s == [s[0]] + s[1..];
    forall y | y in rest ensures cmp(s[0], y) <= 0 {
      assert y in multiset(rest);
    }
    PrependSorted(cmp, s[0], rest);
  }

  lemma SortedSingle<T>(cmp: (T, T) -> int, x: T)
    ensures Sorted(cmp, [x])
  {
  }

  lemma HeadIsLeast<T(!new)>(cmp: (T, T) -> int, s: seq<T>)
    requires IsPreorder(cmp) && Sorted(cmp, s) && |s| > 0
    ensures Sorted(cmp, s[1..]) && forall y :: y in s ==> cmp(s[0], y) <= 0
  {
  }

  lemma PrependSorted<T>(cmp: (T, T) -> int, x: T, s: seq<T>)
    requires Sorted(cmp, s) && forall y :: y in s ==> cmp(x, y) <= 0
    ensures Sorted(cmp, [x] + s)
  {
  }

  lemma RemoveAt<T>(s: seq<T>, k: nat)
    requires k < |s|
    ensures multiset(s) == multiset(s[..k] + s[k + 1..]) + multiset{s[k]}
  {
    assert s == s[..k] + [s[k]] + s[k + 1..];
    assert multiset(s) == multiset(s[..k]) + multiset{s[k]} + multiset(s[k + 1..]);
  }

  lemma Cancel<T>(a: multiset<T>, b: multiset<T>, x: T)
    requires a + multiset{x} == b + multiset{x}
    ensures a == b
  {
    assert a == (a + multiset{x}) - multiset{x};
    assert b == (b + multiset{x}) - multiset{x};
  }

  lemma SameLength<T>(a: seq<T>, b: seq<T>)
    requires multiset(a) == multiset(b)
    ensures |a| == |b|
  {
    assert |a| == |multiset(a)| && |b| == |multiset(b)|;
  }

  /** An element of one arrangement sits somewhere in the other. */
  lemma FindElement<T>(a: seq<T>, b: seq<T>, x: T) returns (k: nat)
    requires multiset(a) == multiset(b) && x in a
    ensures k < |b| && b[k] == x
  {
    assert x in multiset(a);
    assert x in multiset(b);
    k :| 0 <= k < |b| && b[k] == x;
  }

  /** Only equal elements tie. */
  ghost predicate OnlyEqualTie<T>(cmp: (T, T) -> int, s: seq<T>) {
    forall x, y :: x in s && y in s && cmp(x, y) <= 0 && cmp(y, x) <= 0 ==> x == y
  }

  /** Two sorted arrangements of the same elements agree, unless distinct elements tie. */
  lemma {:induction false} SortedIsUnique<T>(cmp: (T, T) -> int, a: seq<T>, b: seq<T>)
    requires multiset(a) == multiset(b)
    requires Sorted(cmp, a) && Sorted(cmp, b)
    requires OnlyEqualTie(cmp, a)
    ensures a == b
  {
    hide Sorted, OnlyEqualTie;
    SameLength(a, b);
    if |a| > 0 {
      HeadsAgree(cmp, a, b);
      DropHeads(a, b);
      TailTies(cmp, a);
      SortedIsUnique(cmp, a[1..], b[1..]);
      assert a == [a[0]] + a[1..] && b == [b[0]] + b[1..];
    }
  }

  lemma TailTies<T>(cmp: (T, T) -> int, s: seq<T>)
    requires OnlyEqualTie(cmp, s) && |s| > 0
    ensures OnlyEqualTie(cmp, s[1..])
  {
    assert forall x :: x in s[1..] ==> x in s;
  }

  lemma DropHeads<T>(a: seq<T>, b: seq<T>)
    requires multiset(a) == multiset(b) && |a| > 0 && |b| > 0 && a[0] == b[0]
    ensures multiset(a[1..]) == multiset(b[1..])
  {
    HeadTail(a);
    HeadTail(b);
    Cancel(multiset(a[1..]), multiset(b[1..]), a[0]);
  }

  lemma HeadTail<T>(a: seq<T>)
    requires |a| > 0
    ensures multiset(a) == multiset(a[1..]) + multiset{a[0]}
  {
    assert a == [a[0]] + a[1..];
  }

  lemma HeadsAgree<T>(cmp: (T, T) -> int, a: seq<T>, b: seq<T>)
    requires multiset(a) == multiset(b) && |a| > 0 && |b| > 0
    requires Sorted(cmp, a) && Sorted(cmp, b)
    requires OnlyEqualTie(cmp, a)
    ensures a[0] == b[0] && Sorted(cmp, a[1..]) && Sorted(cmp, b[1..])
  {
    var i := FindElement(a, b, a[0]);
    var j := FindElement(b, a, b[0]);
    SortedTail(cmp, a);
    SortedTail(cmp, b);
    assert a[0] in a && a[j] in a && b[0] == a[j];
    assert cmp(a[0], a[j]) <= 0 || j == 0;
    assert cmp(b[0], b[i]) <= 0 || i == 0;
  }

  /******* Lexicographic comparison *******/

  function CompareChar(a: char, b: char): int {
    a as int - b as int
  }

  function CompareSeq<T>(cmp: (T, T) -> int, a: seq<T>, b: seq<T>): int {
    if a == [] || b == [] then |a| - |b|
    else if cmp(a[0], b[0]) != 0 then cmp(a[0], b[0])
    else CompareSeq(cmp, a[1..], b[1..])
  }

  lemma {:induction false} CompareSeqSigns<T(!new)>(cmp: (T, T) -> int, a: seq<T>, b: seq<T>)
    requires IsOrder(cmp)
    ensures CompareSeq(cmp, a, b) == 0 <==> a == b
    ensures CompareSeq(cmp, a, b) < 0 <==> CompareSeq(cmp, b, a) > 0
  {
    if a != [] && b != [] {
      assert a == [a[0]] + a[1..] && b == [b[0]] + b[1..];
      CompareSeqSigns(cmp, a[1..], b[1..]);
    }
  }

  lemma {:induction false} CompareSeqTransitive<T(!new)>(cmp: (T, T) -> int, a: seq<T>, b: seq<T>, c: seq<T>)
    requires IsOrder(cmp)
    requires CompareSeq(cmp, a, b) <= 0 && CompareSeq(cmp, b, c) <= 0
    ensures CompareSeq(cmp, a, c) <= 0
  {
    if a != [] && b != [] && c != [] {
      assert cmp(a[0], b[0]) <= 0 && cmp(b[0], c[0]) <= 0 && cmp(a[0], c[0]) <= 0;
      if a[0] == c[0] {
        assert a[0] == b[0] by { assert cmp(b[0], a[0]) <= 0; }
        CompareSeqTransitive(cmp, a[1..], b[1..], c[1..]);
      }
    }
  }

  function CompareText(a: string, b: string): int {
    CompareSeq(CompareChar, a, b)
  }

  function CompareTexts(a: seq<string>, b: seq<string>): int {
    CompareSeq(CompareText, a, b)
  }

  lemma TextIsOrdered()
    ensures IsOrder(CompareText)
  {
    assert IsOrder(CompareChar);
    forall x, y ensures (CompareText(x, y) == 0 <==> x == y) && (CompareText(x, y) < 0 <==> CompareText(y, x) > 0) {
      CompareSeqSigns(CompareChar, x, y);
    }
    forall x, y, z | CompareText(x, y) <= 0 && CompareText(y, z) <= 0 ensures CompareText(x, z) <= 0 {
      CompareSeqTransitive(CompareChar, x, y, z);
    }
  }

  lemma TextsAreOrdered()
    ensures IsOrder(CompareTexts)
  {
    TextIsOrdered();
    forall x, y ensures (CompareTexts(x, y) == 0 <==> x == y) && (CompareTexts(x, y) < 0 <==> CompareTexts(y, x) > 0) {
      CompareSeqSigns(CompareText, x, y);
    }
    forall x, y, z | CompareTexts(x, y) <= 0 && CompareTexts(y, z) <= 0 ensures CompareTexts(x, z) <= 0 {
      CompareSeqTransitive(CompareText, x, y, z);
    }
  }

  /** Byte-wise lexicographic order: a stops first, or has the smaller character where the two first differ. */
  ghost predicate Before(a: string, b: string) {
    exists i :: DiffersAt(a, b, i)
  }

  ghost predicate DiffersAt(a: string, b: string, i: int) {
    && 0 <= i <= |a| && i < |b| && a[..i] == b[..i]
    && (i == |a| || a[i] < b[i])
  }

  /** The comparison of texts is that order. */
  lemma {:induction false} CompareTextIs(a: string, b: string)
    ensures CompareText(a, b) < 0 <==> Before(a, b)
  {
    if a == "" && b != "" {
      assert DiffersAt(a, b, 0);
    } else if a != "" && b != "" {
      if a[0] != b[0] {
        if a[0] < b[0] {
          assert DiffersAt(a, b, 0);
        } else if Before(a, b) {
          var i :| DiffersAt(a, b, i);
          assert i > 0 ==> a[..i][0] == b[..i][0];
        }
      } else {
        CompareTextIs(a[1..], b[1..]);
        TailBefore(a, b);
      }
    }
  }

  lemma TailBefore(a: string, b: string)
    requires a != "" && b != "" && a[0] == b[0]
    ensures Before(a, b) <==> Before(a[1..], b[1..])
  {
    if Before(a, b) {
      var i :| DiffersAt(a, b, i);
      assert a[1..][..i - 1] == a[..i][1..] && b[1..][..i - 1] == b[..i][1..];
      assert DiffersAt(a[1..], b[1..], i - 1);
    }
    if Before(a[1..], b[1..]) {
      var i :| DiffersAt(a[1..], b[1..], i);
      assert a[..i + 1] == [a[0]] + a[1..][..i] && b[..i + 1] == [b[0]] + b[1..][..i];
      assert DiffersAt(a, b, i + 1);
    }
  }

  /** The same for lists of texts: a stops first, or has the smaller text where the two first differ. */
  ghost predicate ListBefore(a: seq<string>, b: seq<string>) {
    exists i :: ListDiffersAt(a, b, i)
  }

  ghost predicate ListDiffersAt(a: seq<string>, b: seq<string>, i: int) {
    && 0 <= i <= |a| && i < |b| && a[..i] == b[..i]
    && (i == |a| || Before(a[i], b[i]))
  }

  lemma {:induction false} CompareTextsIs(a: seq<string>, b: seq<string>)
    ensures CompareTexts(a, b) < 0 <==> ListBefore(a, b)
  {
    hide CompareText, Before;
    TextIsOrdered();
    if a == [] && b != [] {
      assert ListDiffersAt(a, b, 0);
    } else if a != [] && b != [] {
      CompareTextIs(a[0], b[0]);
      if a[0] != b[0] {
        if Before(a[0], b[0]) {
          assert ListDiffersAt(a, b, 0);
        } else if ListBefore(a, b) {
          var i :| ListDiffersAt(a, b, i);
          assert i > 0 ==> a[..i][0] == b[..i][0];
        }
      } else {
        CompareTextsIs(a[1..], b[1..]);
        TailListBefore(a, b);
      }
    }
  }

  lemma TailListBefore(a: seq<string>, b: seq<string>)
    requires a != [] && b != [] && a[0] == b[0]
    ensures ListBefore(a, b) <==> ListBefore(a[1..], b[1..])
  {
    hide Before;
    if ListBefore(a, b) {
      var i :| ListDiffersAt(a, b, i);
      if i == 0 {
        NotBeforeItself(a[0]);
      } else {
        assert a[1..][..i - 1] == a[..i][1..] && b[1..][..i - 1] == b[..i][1..];
        assert ListDiffersAt(a[1..], b[1..], i - 1);
      }
    }
    if ListBefore(a[1..], b[1..]) {
      var i :| ListDiffersAt(a[1..], b[1..], i);
      assert a[..i + 1] == [a[0]] + a[1..][..i] && b[..i + 1] == [b[0]] + b[1..][..i];
      assert ListDiffersAt(a, b, i + 1);
    }
  }

  lemma NotBeforeItself(a: string)
    ensures !Before(a, a)
  {
  }

  /** cmp.Or over two keys: the first key that differs decides. */
  function Or(first: int, second: int): int {
    if first != 0 then first else second
  }

  /******* Sorted sets of names *******/

  ghost predicate StrictlySorted(s: seq<string>) {
    forall i, j :: 0 <= i < j < |s| ==> CompareText(s[i], s[j]) < 0
  }

  /** Adds a name to a sorted list of names, once. */
  function AddName(s: seq<string>, x: string): (r: seq<string>)
    requires StrictlySorted(s)
    ensures StrictlySorted(r)
    ensures forall y :: y in r <==> y in s || y == x
  {
    hide StrictlySorted, CompareText;
    TextIsOrdered();
    if |s| == 0 then
      PrependName(x, s);
      [x] + s
    else
      FirstName(s);
      if CompareText(x, s[0]) < 0 then
        PrependName(x, s);
        [x] + s
      else if x == s[0] then s
      else
        var rest := AddName(s[1..], x);
        PrependName(s[0], rest);
        [s[0]] + rest
  }

  lemma FirstName(s: seq<string>)
    requires StrictlySorted(s) && |s| > 0
    ensures StrictlySorted(s[1..])
    ensures forall y :: y in s <==> y == s[0] || y in s[1..]
    ensures forall y :: y in s[1..] ==> CompareText(s[0], y) < 0
  {
    hide CompareText;
    assert s == [s[0]] + s[1..];
  }

  lemma PrependName(x: string, s: seq<string>)
    requires StrictlySorted(s) || s == []
    requires forall y :: y in s ==> CompareText(x, y) < 0
    ensures StrictlySorted([x] + s)
    ensures forall y :: y in [x] + s <==> y == x || y in s
  {
    hide CompareText;
  }

  lemma {:induction false} SortedSetIsUnique(a: seq<string>, b: seq<string>)
    requires StrictlySorted(a) && StrictlySorted(b)
    requires forall x :: x in a <==> x in b
    ensures a == b
  {
    hide StrictlySorted, CompareText;
    TextIsOrdered();
    assert |a| > 0 ==> a[0] in b;
    assert |b| > 0 ==> b[0] in a;
    if |a| > 0 && |b| > 0 {
      FirstName(a);
      FirstName(b);
      assert a[0] == b[0];
      SortedSetIsUnique(a[1..], b[1..]);
      assert a == [a[0]] + a[1..] && b == [b[0]] + b[1..];
    }
  }

  function SetOf(s: seq<string>): (r: set<string>)
    ensures forall x :: x in r <==> x in s
  {
    set x | x in s
  }

  /******* Images of sequences *******/

  function Map<A, B>(f: A -> B, s: seq<A>): (r: seq<B>)
    ensures |r| == |s| && forall i :: 0 <= i < |s| ==> r[i] == f(s[i])
  {
    seq(|s|, i requires 0 <= i < |s| => f(s[i]))
  }

  lemma MapSplit<A, B>(f: A -> B, s: seq<A>, k: nat)
    requires k < |s|
    ensures multiset(Map(f, s)) == multiset(Map(f, Without(s, k))) + multiset{f(s[k])}
  {
    hide Map;
    var r := Map(f, s);
    RemoveAt(r, k);
    assert Map(f, Without(s, k)) == r[..k] + r[k + 1..];
  }

  /** If g depends only on f, sequences with the same f-values have the same g-values. */
  lemma {:induction false} MapFactors<A, B, C>(f: A -> B, g: A -> C, s: seq<A>, t: seq<A>)
    requires forall x, y :: (x in s || x in t) && (y in s || y in t) && f(x) == f(y) ==> g(x) == g(y)
    requires multiset(Map(f, s)) == multiset(Map(f, t))
    ensures multiset(Map(g, s)) == multiset(Map(g, t))
    decreases |s|
  {
    hide Map;
    SameLength(Map(f, s), Map(f, t));
    if |s| > 0 {
      var k := FindElement(Map(f, s), Map(f, t), Map(f, s)[0]);
      var s', t' := Without(s, 0), Without(t, k);
      StillIn(s, 0);
      StillIn(t, k);
      MapCancel(f, s, t, 0, k);
      MapFactors(f, g, s', t');
      MapUncancel(g, s, t, 0, k);
    }
  }

  function Without<A>(s: seq<A>, k: nat): seq<A>
    requires k < |s|
  {
    s[..k] + s[k + 1..]
  }

  lemma StillIn<A>(s: seq<A>, k: nat)
    requires k < |s|
    ensures s[k] in s && forall x :: x in Without(s, k) ==> x in s
  {
  }

  /** Elements with the same image can be left out on both sides, */
  lemma MapCancel<A, B>(f: A -> B, s: seq<A>, t: seq<A>, j: nat, k: nat)
    requires j < |s| && k < |t| && f(s[j]) == f(t[k]) && multiset(Map(f, s)) == multiset(Map(f, t))
    ensures multiset(Map(f, Without(s, j))) == multiset(Map(f, Without(t, k)))
  {
    hide Map;
    MapSplit(f, s, j);
    MapSplit(f, t, k);
    Cancel(multiset(Map(f, Without(s, j))), multiset(Map(f, Without(t, k))), f(s[j]));
  }

  /** and put back. */
  lemma MapUncancel<A, B>(f: A -> B, s: seq<A>, t: seq<A>, j: nat, k: nat)
    requires j < |s| && k < |t| && f(s[j]) == f(t[k])
    requires multiset(Map(f, Without(s, j))) == multiset(Map(f, Without(t, k)))
    ensures multiset(Map(f, s)) == multiset(Map(f, t))
  {
    hide Map;
    MapSplit(f, s, j);
    MapSplit(f, t, k);
  }
}

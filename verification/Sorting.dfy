/** Ordering by string keys: what a sort leaves behind does not depend on the order it was given. */
module Sorting {
  type Key = (string, string)

  // Code point order of strings.
  predicate AtMost(a: string, b: string) {
    a == "" || (b != "" && (a[0] < b[0] || (a[0] == b[0] && AtMost(a[1..], b[1..]))))
  }

  lemma AtMostTotal(a: string, b: string)
    ensures AtMost(a, b) || AtMost(b, a)
  {
  }

  lemma {:induction false} AtMostAntisymmetric(a: string, b: string)
    requires AtMost(a, b) && AtMost(b, a)
    ensures a == b
  {
    if a != "" {
      AtMostAntisymmetric(a[1..], b[1..]);
      assert a == [a[0]] + a[1..] && b == [b[0]] + b[1..];
    }
  }

  lemma {:induction false} AtMostTransitive(a: string, b: string, c: string)
    requires AtMost(a, b) && AtMost(b, c)
    ensures AtMost(a, c)
  {
    if a != "" && a[0] == b[0] == c[0] { AtMostTransitive(a[1..], b[1..], c[1..]); }
  }

  // The first difference between the strings is at i, where a has the lesser character.
  predicate LesserAt(a: string, b: string, i: nat) { i < |a| && i < |b| && a[..i] == b[..i] && a[i] < b[i] }

  // A string comes before its extensions, and before whatever first differs by a greater character.
  lemma {:induction false} AtMostMeans(a: string, b: string)
    ensures AtMost(a, b) <==> a <= b || exists i: nat :: LesserAt(a, b, i)
  {
    if a != "" && b != "" {
      if a[0] < b[0] {
        assert LesserAt(a, b, 0);
      } else if a[0] == b[0] {
        AtMostMeans(a[1..], b[1..]);
        assert a <= b <==> a[1..] <= b[1..] by { assert a == [a[0]] + a[1..] && b == [b[0]] + b[1..]; }
        forall i: nat ensures LesserAt(a[1..], b[1..], i) <==> LesserAt(a, b, i + 1) { OneFurther(a, b, i); }
        assert forall i: nat :: LesserAt(a, b, i) ==> i > 0 && LesserAt(a[1..], b[1..], i - 1);
      } else {
        assert forall i: nat :: LesserAt(a, b, i) ==> i == 0 || a[..i][0] == b[..i][0];
      }
    }
  }

  lemma OneFurther(a: string, b: string, i: nat)
    requires a != "" && b != "" && a[0] == b[0]
    ensures LesserAt(a[1..], b[1..], i) <==> LesserAt(a, b, i + 1)
  {
    if i + 1 < |a| && i + 1 < |b| {
      assert a[..i + 1] == [a[0]] + a[1..][..i] && b[..i + 1] == [b[0]] + b[1..][..i];
    }
  }

  // The comparator both normalisers use: first field, ties by the second.
  predicate KeyAtMost(k: Key, l: Key) { if k.0 == l.0 then AtMost(k.1, l.1) else AtMost(k.0, l.0) }

  lemma KeyTotal(k: Key, l: Key)
    ensures KeyAtMost(k, l) || KeyAtMost(l, k)
    ensures KeyAtMost(k, l) && KeyAtMost(l, k) ==> k == l
  {
    AtMostTotal(k.0, l.0);
    AtMostTotal(k.1, l.1);
    if AtMost(k.0, l.0) && AtMost(l.0, k.0) { AtMostAntisymmetric(k.0, l.0); }
    if AtMost(k.1, l.1) && AtMost(l.1, k.1) { AtMostAntisymmetric(k.1, l.1); }
  }

  lemma KeyTransitive(k: Key, l: Key, m: Key)
    requires KeyAtMost(k, l) && KeyAtMost(l, m)
    ensures KeyAtMost(k, m)
  {
    if k.0 == l.0 == m.0 {
      AtMostTransitive(k.1, l.1, m.1);
    } else if k.0 != l.0 && l.0 != m.0 {
      AtMostTransitive(k.0, l.0, m.0);
      if k.0 == m.0 { AtMostAntisymmetric(k.0, l.0); }
    }
  }

  predicate InOrder<T>(key: T -> Key, s: seq<T>) {
    forall i, j :: 0 <= i < j < |s| ==> KeyAtMost(key(s[i]), key(s[j]))
  }

  function Insert<T>(key: T -> Key, x: T, s: seq<T>): seq<T> {
    if s == [] || KeyAtMost(key(x), key(s[0])) then [x] + s else [s[0]] + Insert(key, x, s[1..])
  }

  function Sorted<T>(key: T -> Key, s: seq<T>): seq<T> {
    if s == [] then [] else Insert(key, s[0], Sorted(key, s[1..]))
  }

  lemma {:induction false} InsertKeeps<T>(key: T -> Key, x: T, s: seq<T>)
    ensures multiset(Insert(key, x, s)) == multiset(s) + multiset{x}
  {
    if s == [] || KeyAtMost(key(x), key(s[0])) {
    } else {
      InsertKeeps(key, x, s[1..]);
      assert s == [s[0]] + s[1..];
    }
  }

  lemma {:induction false} SortedKeeps<T>(key: T -> Key, s: seq<T>)
    ensures multiset(Sorted(key, s)) == multiset(s) && |Sorted(key, s)| == |s|
  {
    if s != [] {
      SortedKeeps(key, s[1..]);
      InsertKeeps(key, s[0], Sorted(key, s[1..]));
      assert s == [s[0]] + s[1..];
    }
    assert |multiset(Sorted(key, s))| == |multiset(s)|;
  }

  lemma {:induction false} InsertOrders<T>(key: T -> Key, x: T, s: seq<T>)
    requires InOrder(key, s)
    ensures InOrder(key, Insert(key, x, s))
  {
    if s != [] {
      KeyTotal(key(x), key(s[0]));
      if KeyAtMost(key(x), key(s[0])) {
        forall i | 0 <= i < |s| ensures KeyAtMost(key(x), key(s[i])) {
          if i > 0 { KeyTransitive(key(x), key(s[0]), key(s[i])); }
        }
      } else {
        InsertOrders(key, x, s[1..]);
        var t := Insert(key, x, s[1..]);
        InsertKeeps(key, x, s[1..]);
        forall i | 0 <= i < |t| ensures KeyAtMost(key(s[0]), key(t[i])) {
          assert t[i] in multiset(t);
          assert t[i] == x || t[i] in s[1..];
        }
      }
    }
  }

  lemma {:induction false} SortedOrders<T>(key: T -> Key, s: seq<T>)
    ensures InOrder(key, Sorted(key, s))
  {
    if s != [] {
      SortedOrders(key, s[1..]);
      InsertOrders(key, s[0], Sorted(key, s[1..]));
    }
  }

  function Without<T>(s: seq<T>, i: nat): seq<T>
    requires i < |s|
  {
    s[..i] + s[i + 1..]
  }

  lemma RemovedAt<T>(s: seq<T>, i: nat)
    requires i < |s|
    ensures multiset(Without(s, i)) == multiset(s) - multiset{s[i]}
  {
    assert s == s[..i] + [s[i]] + s[i + 1..];
  }

  // The head of one arrangement, located in the other.
  lemma HeadIn<T>(s: seq<T>, t: seq<T>) returns (j: nat)
    requires multiset(s) == multiset(t) && s != []
    ensures j < |t| && t[j] == s[0] && multiset(s[1..]) == multiset(Without(t, j))
  {
    assert s[0] in multiset(t);
    j :| 0 <= j < |t| && t[j] == s[0];
    RemovedAt(t, j);
    RemovedAt(s, 0);
    assert Without(s, 0) == s[1..];
  }

  // Elements with the same key are the same element.
  ghost predicate KeyDecides<T(!new)>(key: T -> Key, s: seq<T>) {
    forall x, y :: x in s && y in s && key(x) == key(y) ==> x == y
  }

  // In key order the head is the least key, and it is the same element in both arrangements.
  lemma HeadsAgree<T(!new)>(key: T -> Key, s: seq<T>, t: seq<T>)
    requires InOrder(key, s) && InOrder(key, t) && KeyDecides(key, s)
    requires multiset(s) == multiset(t) && s != [] && t != []
    ensures s[0] == t[0]
  {
    assert s[0] in multiset(t) && t[0] in multiset(s);
    var i :| 0 <= i < |s| && s[i] == t[0];
    var j :| 0 <= j < |t| && t[j] == s[0];
    KeyTotal(key(s[0]), key(t[0]));
  }

  lemma TailsAgree<T>(s: seq<T>, t: seq<T>)
    requires multiset(s) == multiset(t) && s != [] && t != [] && s[0] == t[0]
    ensures multiset(s[1..]) == multiset(t[1..])
    ensures s[1..] == t[1..] ==> s == t
  {
    assert s == [s[0]] + s[1..] && t == [t[0]] + t[1..];
    assert multiset(s[1..]) == multiset(s) - multiset{s[0]};
    assert multiset(t[1..]) == multiset(t) - multiset{t[0]};
  }

  lemma OrderedTail<T(!new)>(key: T -> Key, s: seq<T>)
    requires InOrder(key, s) && KeyDecides(key, s) && s != []
    ensures InOrder(key, s[1..]) && KeyDecides(key, s[1..])
  {
  }

  /** Two arrangements of the same elements, both in key order, are the same sequence. */
  lemma {:induction false} OrderUnique<T(!new)>(key: T -> Key, s: seq<T>, t: seq<T>)
    requires multiset(s) == multiset(t) && InOrder(key, s) && InOrder(key, t) && KeyDecides(key, s)
    ensures s == t
  {
    assert |multiset(s)| == |s| && |multiset(t)| == |t|;
    if s != [] {
      HeadsAgree(key, s, t);
      TailsAgree(s, t);
      OrderedTail(key, s);
      OrderUnique(key, s[1..], t[1..]);
    }
  }

  /** Sorting undoes any rearrangement. */
  lemma SortedAgree<T(!new)>(key: T -> Key, s: seq<T>, t: seq<T>)
    requires multiset(s) == multiset(t) && KeyDecides(key, s)
    ensures Sorted(key, s) == Sorted(key, t)
  {
    SortedKeeps(key, s);
    SortedKeeps(key, t);
    SortedOrders(key, s);
    SortedOrders(key, t);
    forall x | x in Sorted(key, s) ensures x in s { assert x in multiset(Sorted(key, s)); }
    OrderUnique(key, Sorted(key, s), Sorted(key, t));
  }

  // ---------------------------------------------------------------- mapping

  function Map<T, U>(f: T -> U, s: seq<T>): (r: seq<U>)
    ensures |r| == |s| && forall i :: 0 <= i < |s| ==> r[i] == f(s[i])
  {
    if s == [] then [] else [f(s[0])] + Map(f, s[1..])
  }

  lemma {:induction false} InsertMap<T>(key: T -> Key, f: T -> T, x: T, s: seq<T>)
    requires forall y :: y in [x] + s ==> key(f(y)) == key(y)
    ensures Map(f, Insert(key, x, s)) == Insert(key, f(x), Map(f, s))
  {
    if s != [] {
      assert s[0] in [x] + s && x in [x] + s;
      if !KeyAtMost(key(x), key(s[0])) {
        forall y | y in [x] + s[1..] ensures y in [x] + s { }
        InsertMap(key, f, x, s[1..]);
        assert Map(f, s)[1..] == Map(f, s[1..]);
      }
    }
  }

  // A map that leaves keys alone commutes with sorting.
  lemma {:induction false} SortedMap<T>(key: T -> Key, f: T -> T, s: seq<T>)
    requires forall y :: y in s ==> key(f(y)) == key(y)
    ensures Map(f, Sorted(key, s)) == Sorted(key, Map(f, s))
  {
    if s != [] {
      SortedMap(key, f, s[1..]);
      var t := Sorted(key, s[1..]);
      SortedKeeps(key, s[1..]);
      forall y | y in [s[0]] + t ensures y in s {
        if y in t { assert y in multiset(t); }
      }
      InsertMap(key, f, s[0], t);
    }
  }

  // ---------------------------------------------------------------- gathering

  function Gather<T, U>(f: T -> multiset<U>, s: seq<T>): multiset<U> {
    if s == [] then multiset{} else f(s[0]) + Gather(f, s[1..])
  }

  lemma {:induction false} GatherAppend<T, U>(f: T -> multiset<U>, s: seq<T>, t: seq<T>)
    ensures Gather(f, s + t) == Gather(f, s) + Gather(f, t)
  {
    if s == [] {
      assert s + t == t;
    } else {
      GatherAppend(f, s[1..], t);
      assert (s + t)[1..] == s[1..] + t;
    }
  }

  lemma GatherWithout<T, U>(f: T -> multiset<U>, s: seq<T>, i: nat)
    requires i < |s|
    ensures Gather(f, s) == f(s[i]) + Gather(f, Without(s, i))
  {
    assert s == s[..i] + ([s[i]] + s[i + 1..]);
    GatherAppend(f, s[..i], [s[i]] + s[i + 1..]);
    GatherAppend(f, s[..i], s[i + 1..]);
    assert ([s[i]] + s[i + 1..])[1..] == s[i + 1..];
  }

  lemma {:induction false} GatherPermutes<T, U>(f: T -> multiset<U>, s: seq<T>, t: seq<T>)
    requires multiset(s) == multiset(t)
    ensures Gather(f, s) == Gather(f, t)
    decreases |s|
  {
    if s == [] {
      assert |multiset(t)| == 0;
    } else {
      var j := HeadIn(s, t);
      GatherPermutes(f, s[1..], Without(t, j));
      GatherWithout(f, t, j);
    }
  }

  lemma {:induction false} GatherPointwise<T, U>(f: T -> multiset<U>, s: seq<T>, t: seq<T>)
    requires |s| == |t| && forall i :: 0 <= i < |s| ==> f(s[i]) == f(t[i])
    ensures Gather(f, s) == Gather(f, t)
  {
    if s != [] { GatherPointwise(f, s[1..], t[1..]); }
  }

  lemma {:induction false} GatherMap<T, U>(f: T -> U, s: seq<T>)
    ensures multiset(Map(f, s)) == Gather(x => multiset{f(x)}, s)
  {
    if s != [] { GatherMap(f, s[1..]); }
  }

  lemma MapPermutes<T, U>(f: T -> U, s: seq<T>, t: seq<T>)
    requires multiset(s) == multiset(t)
    ensures multiset(Map(f, s)) == multiset(Map(f, t))
  {
    GatherMap(f, s);
    GatherMap(f, t);
    GatherPermutes(x => multiset{f(x)}, s, t);
  }

  // No element occurs twice.
  predicate Simple<T(==)>(m: multiset<T>) { forall x :: x in m ==> m[x] == 1 }

  lemma {:induction false} GatherContains<T, U>(f: T -> multiset<U>, s: seq<T>, i: nat)
    requires i < |s|
    ensures f(s[i]) <= Gather(f, s)
  {
    if i > 0 { GatherContains(f, s[1..], i - 1); }
  }

  // A value gathered at the head and again later occurs twice.
  lemma HeadRepeats<T, U>(f: T -> multiset<U>, s: seq<T>, j: nat, x: U)
    requires 0 < j < |s| && x in f(s[0]) && x in f(s[j])
    ensures !Simple(Gather(f, s))
  {
    GatherContains(f, s[1..], j - 1);
    assert Gather(f, s)[x] >= f(s[0])[x] + f(s[j])[x];
  }

  // Keys gathered without repetition tell the positions apart.
  lemma {:induction false} SimpleSeparates<T, U>(f: T -> multiset<U>, s: seq<T>, i: nat, j: nat, x: U)
    requires Simple(Gather(f, s)) && i < |s| && j < |s| && x in f(s[i]) && x in f(s[j])
    ensures i == j
  {
    if i == 0 {
      if j != 0 { HeadRepeats(f, s, j, x); }
    } else if j == 0 {
      HeadRepeats(f, s, i, x);
    } else {
      assert Gather(f, s[1..]) <= Gather(f, s);
      SimpleSeparates(f, s[1..], i - 1, j - 1, x);
    }
  }

  lemma RepeatNotSimple<T>(r: seq<T>, i: nat, j: nat)
    requires i < j < |r| && r[i] == r[j]
    ensures !Simple(multiset(r))
  {
    assert r == r[..j] + r[j..];
    assert multiset(r) == multiset(r[..j]) + multiset(r[j..]);
    assert r[i] in multiset(r[..j]) by { assert r[..j][i] == r[i]; }
    assert r[j] in multiset(r[j..]) by { assert r[j..][0] == r[j]; }
    assert multiset(r)[r[i]] >= 2;
  }

  // A field without repeated values identifies the element.
  lemma FieldIdentifies<T, U>(f: T -> U, s: seq<T>, i: nat, j: nat)
    requires Simple(multiset(Map(f, s))) && i < |s| && j < |s| && f(s[i]) == f(s[j])
    ensures i == j
  {
    if i < j { RepeatNotSimple(Map(f, s), i, j); }
    if j < i { RepeatNotSimple(Map(f, s), j, i); }
  }

  lemma FieldDecides<T(!new), U>(key: T -> Key, f: T -> U, s: seq<T>)
    requires Simple(multiset(Map(f, s))) && forall x, y :: key(x) == key(y) ==> f(x) == f(y)
    ensures KeyDecides(key, s)
  {
    forall x, y | x in s && y in s && key(x) == key(y) ensures x == y {
      var i :| 0 <= i < |s| && s[i] == x;
      var j :| 0 <= j < |s| && s[j] == y;
      assert f(s[i]) == f(s[j]);
      FieldIdentifies(f, s, i, j);
    }
  }

  lemma SameElements<T>(s: seq<T>, t: seq<T>)
    requires multiset(s) == multiset(t)
    ensures |s| == |t| && forall x :: x in s <==> x in t
  {
    assert |multiset(s)| == |s| && |multiset(t)| == |t|;
    forall x ensures x in s <==> x in t { assert x in s <==> x in multiset(s); assert x in t <==> x in multiset(t); }
  }

  lemma MapPointwise<T, U>(f: T -> U, s: seq<T>, t: seq<T>)
    requires |s| == |t| && forall i :: 0 <= i < |s| ==> f(s[i]) == f(t[i])
    ensures Map(f, s) == Map(f, t)
  {
  }
}

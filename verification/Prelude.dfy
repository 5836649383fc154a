// Shared vocabulary: optional values, a stable sort with its uniqueness law,
// permutations, lists of distinct elements,
// and mapping over lists.
module Prelude {

  datatype Option<+T> = None | Some(value: T)

  // ---------------------------------------------------------------- sorting

  function Insert<T>(le: (T, T) -> bool, x: T, s: seq<T>): seq<T> {
    if s == [] || le(x, s[0]) then [x] + s else [s[0]] + Insert(le, x, s[1..])
  }

  // A stable sort: equal elements keep their order.
  function Sort<T>(le: (T, T) -> bool, s: seq<T>): seq<T> {
    if s == [] then [] else Insert(le, s[0], Sort(le, s[1..]))
  }

  ghost predicate Sorted<T>(le: (T, T) -> bool, s: seq<T>) {
    forall i, j :: 0 <= i < j < |s| ==> le(s[i], s[j])
  }

  ghost predicate TotalPreorder<T(!new)>(le: (T, T) -> bool) {
    && (forall a, b :: le(a, b) || le(b, a))
    && (forall a, b, c :: le(a, b) && le(b, c) ==> le(a, c))
  }

  // No two different elements of `s` are equivalent for `le`.
  ghost predicate SeparatesElementsOf<T>(le: (T, T) -> bool, s: multiset<T>) {
    forall a, b | a in s && b in s :: le(a, b) && le(b, a) ==> a == b
  }

  lemma {:induction false} InsertContents<T>(le: (T, T) -> bool, x: T, s: seq<T>)
    ensures multiset(Insert(le, x, s)) == multiset(s) + multiset{x}
    ensures |Insert(le, x, s)| == |s| + 1
  {
    if s == [] || le(x, s[0]) {
    } else {
      InsertContents(le, x, s[1..]);
      assert s == [s[0]] + s[1..];
    }
  }

  lemma {:induction false} SortContents<T>(le: (T, T) -> bool, s: seq<T>)
    ensures multiset(Sort(le, s)) == multiset(s)
    ensures |Sort(le, s)| == |s|
  {
    if s != [] {
      SortContents(le, s[1..]);
      InsertContents(le, s[0], Sort(le, s[1..]));
      assert s == [s[0]] + s[1..];
    }
  }

  lemma {:induction false} SortMembers<T>(le: (T, T) -> bool, s: seq<T>)
    ensures forall x :: x in Sort(le, s) <==> x in s
  {
    SortContents(le, s);
    SameMembers(Sort(le, s), s);
  }

  lemma {:induction false} SameMembers<T>(a: seq<T>, b: seq<T>)
    requires multiset(a) == multiset(b)
    ensures forall x :: x in a <==> x in b
  {
    forall x ensures x in a <==> x in b {
      assert x in a <==> x in multiset(a);
      assert x in b <==> x in multiset(b);
    }
  }

  lemma {:induction false} InsertSorted<T(!new)>(le: (T, T) -> bool, x: T, s: seq<T>)
    requires TotalPreorder(le) && Sorted(le, s)
    ensures Sorted(le, Insert(le, x, s))
  {
    var r := Insert(le, x, s);
    if s == [] {
    } else if le(x, s[0]) {
      forall i, j | 0 <= i < j < |r| ensures le(r[i], r[j]) {
        if i == 0 {
          assert le(s[0], s[0]);
          assert r[j] == s[j - 1];
          assert le(s[0], s[j - 1]);
        } else {
          assert r[i] == s[i - 1] && r[j] == s[j - 1];
        }
      }
    } else {
      var t := s[1..];
      InsertSorted(le, x, t);
      InsertContents(le, x, t);
      var u := Insert(le, x, t);
      forall i, j | 0 <= i < j < |r| ensures le(r[i], r[j]) {
        if i == 0 {
          assert r[j] == u[j - 1];
          assert u[j - 1] in multiset(u);
          assert u[j - 1] == x || u[j - 1] in t;
          if u[j - 1] in t {
            var k :| 0 <= k < |t| && t[k] == u[j - 1];
            assert s[k + 1] == t[k];
          }
        } else {
          assert r[i] == u[i - 1] && r[j] == u[j - 1];
        }
      }
    }
  }

  lemma {:induction false} SortSorted<T(!new)>(le: (T, T) -> bool, s: seq<T>)
    requires TotalPreorder(le)
    ensures Sorted(le, Sort(le, s))
  {
    if s != [] {
      SortSorted(le, s[1..]);
      InsertSorted(le, s[0], Sort(le, s[1..]));
    }
  }

  lemma {:induction false} SortedHeadsAgree<T(!new)>(le: (T, T) -> bool, a: seq<T>, b: seq<T>)
    requires TotalPreorder(le) && Sorted(le, a) && Sorted(le, b)
    requires a != [] && b != [] && multiset(a) == multiset(b)
    requires SeparatesElementsOf(le, multiset(a))
    ensures a[0] == b[0]
  {
    SameMembers(a, b);
    assert a[0] in b && b[0] in a;
    assert le(a[0], a[0]) && le(b[0], b[0]);
    assert le(b[0], a[0]) by { var i :| 0 <= i < |b| && b[i] == a[0]; }
    assert le(a[0], b[0]) by { var j :| 0 <= j < |a| && a[j] == b[0]; }
    assert a[0] in multiset(a) && b[0] in multiset(a);
  }

  lemma {:induction false} TailContents<T>(a: seq<T>)
    requires a != []
    ensures multiset(a[1..]) == multiset(a) - multiset{a[0]}
    ensures forall x :: x in multiset(a[1..]) ==> x in multiset(a)
  {
    assert a == [a[0]] + a[1..];
  }

  lemma {:induction false} EmptyAlike<T>(a: seq<T>, b: seq<T>)
    requires multiset(a) == multiset(b)
    ensures a == [] <==> b == []
  {
    assert |multiset(a)| == |a| && |multiset(b)| == |b|;
  }

  lemma {:induction false} TailsAgree<T>(a: seq<T>, b: seq<T>)
    requires a != [] && b != [] && a[0] == b[0] && multiset(a) == multiset(b)
    ensures multiset(a[1..]) == multiset(b[1..])
  {
    TailContents(a);
    TailContents(b);
  }

  lemma {:induction false} SameHeadAndTail<T>(a: seq<T>, b: seq<T>)
    requires a != [] && b != [] && a[0] == b[0] && a[1..] == b[1..]
    ensures a == b
  {
    assert a == [a[0]] + a[1..] && b == [b[0]] + b[1..];
  }

  lemma {:induction false} TailsStaySorted<T(!new)>(le: (T, T) -> bool, a: seq<T>)
    requires a != [] && Sorted(le, a) && SeparatesElementsOf(le, multiset(a))
    ensures Sorted(le, a[1..]) && SeparatesElementsOf(le, multiset(a[1..]))
  {
    TailContents(a);
  }

  // Two sorted sequences with the same contents are the same sequence.
  lemma {:induction false} SortedUnique<T(!new)>(le: (T, T) -> bool, a: seq<T>, b: seq<T>)
    requires TotalPreorder(le) && Sorted(le, a) && Sorted(le, b)
    requires multiset(a) == multiset(b)
    requires SeparatesElementsOf(le, multiset(a))
    ensures a == b
    decreases |a|
  {
    hide TotalPreorder, Sorted, SeparatesElementsOf;
    EmptyAlike(a, b);
    if a != [] {
      SortedHeadsAgree(le, a, b);
      TailsStaySorted(le, a);
      TailsStaySorted(le, b);
      TailsAgree(a, b);
      SortedUnique(le, a[1..], b[1..]);
      SameHeadAndTail(a, b);
    }
  }

  // Sorting forgets the order of its input.
  lemma {:induction false} SortForgetsOrder<T(!new)>(le: (T, T) -> bool, a: seq<T>, b: seq<T>)
    requires TotalPreorder(le) && multiset(a) == multiset(b)
    requires SeparatesElementsOf(le, multiset(a))
    ensures Sort(le, a) == Sort(le, b)
  {
    SortSorted(le, a);
    SortSorted(le, b);
    SortContents(le, a);
    SortContents(le, b);
    SortedUnique(le, Sort(le, a), Sort(le, b));
  }

  lemma {:induction false} SortOfSorted<T(!new)>(le: (T, T) -> bool, a: seq<T>)
    requires TotalPreorder(le) && Sorted(le, a)
    requires SeparatesElementsOf(le, multiset(a))
    ensures Sort(le, a) == a
  {
    SortSorted(le, a);
    SortContents(le, a);
    SortedUnique(le, Sort(le, a), a);
  }

  // ---------------------------------------------------------- distinctness

  predicate Distinct<T(==)>(s: seq<T>) {
    forall i, j | 0 <= i < j < |s| :: s[i] != s[j]
  }

  lemma {:induction false} DistinctMultiplicity<T>(s: seq<T>)
    ensures Distinct(s) <==> forall x | x in multiset(s) :: multiset(s)[x] == 1
  {
    if s != [] {
      var t := s[1..];
      DistinctMultiplicity(t);
      assert s == [s[0]] + t;
      assert multiset(s) == multiset{s[0]} + multiset(t);
      if Distinct(s) {
        assert Distinct(t);
        assert s[0] !in t by {
          forall k | 0 <= k < |t| ensures t[k] != s[0] { assert s[k + 1] == t[k]; }
        }
        forall x | x in multiset(s) ensures multiset(s)[x] == 1 {
          if x != s[0] {
            assert x in multiset(t);
          }
        }
      }
      if forall x | x in multiset(s) :: multiset(s)[x] == 1 {
        assert s[0] in multiset(s);
        assert s[0] !in multiset(t);
        assert s[0] !in t;
        forall x | x in multiset(t) ensures multiset(t)[x] == 1 {
          assert x in multiset(s);
        }
        forall i, j | 0 <= i < j < |s| ensures s[i] != s[j] {
          assert s[j] == t[j - 1];
          if i == 0 {
            assert t[j - 1] in t;
          } else {
            assert s[i] == t[i - 1];
          }
        }
      }
    }
  }

  lemma {:induction false} DistinctIsOrderFree<T>(a: seq<T>, b: seq<T>)
    requires multiset(a) == multiset(b)
    ensures Distinct(a) <==> Distinct(b)
  {
    DistinctMultiplicity(a);
    DistinctMultiplicity(b);
  }

  // Two distinct sequences with the same members are permutations.
  lemma {:induction false} SameContents<T>(a: seq<T>, b: seq<T>)
    requires Distinct(a) && Distinct(b)
    requires forall x :: x in a <==> x in b
    ensures multiset(a) == multiset(b)
  {
    DistinctMultiplicity(a);
    DistinctMultiplicity(b);
    forall x ensures multiset(a)[x] == multiset(b)[x] {
      assert x in a <==> x in multiset(a);
      assert x in b <==> x in multiset(b);
    }
  }

  // ------------------------------------------------------------- utilities

  function Map<A, B>(f: A -> B, s: seq<A>): (r: seq<B>)
    ensures |r| == |s|
  {
    if s == [] then [] else [f(s[0])] + Map(f, s[1..])
  }

  lemma {:induction false} MapAt<A, B>(f: A -> B, s: seq<A>, i: nat)
    requires i < |s|
    ensures Map(f, s)[i] == f(s[i])
  {
    if i > 0 {
      MapAt(f, s[1..], i - 1);
    }
  }

  lemma {:induction false} MapAll<A, B>(f: A -> B, s: seq<A>)
    ensures forall i :: 0 <= i < |s| ==> Map(f, s)[i] == f(s[i])
  {
    forall i | 0 <= i < |s| ensures Map(f, s)[i] == f(s[i]) {
      MapAt(f, s, i);
    }
  }

  lemma {:induction false} MapMembers<A, B(!new)>(f: A -> B, s: seq<A>)
    ensures forall y :: y in Map(f, s) <==> exists i :: 0 <= i < |s| && f(s[i]) == y
  {
    MapAll(f, s);
  }

  lemma {:induction false} MapAppend<A, B>(f: A -> B, a: seq<A>, b: seq<A>)
    ensures Map(f, a + b) == Map(f, a) + Map(f, b)
  {
    if a == [] {
      assert a + b == b;
    } else {
      var rest := a[1..] + b;
      MapAppend(f, a[1..], b);
      assert (a + b)[1..] == rest && (a + b)[0] == a[0];
      assert Map(f, a + b) == [f(a[0])] + Map(f, rest);
      assert Map(f, a) == [f(a[0])] + Map(f, a[1..]);
    }
  }

  lemma {:induction false} MapWithout<A, B>(f: A -> B, s: seq<A>, j: nat)
    requires j < |s|
    ensures multiset(Map(f, s)) == multiset(Map(f, Without(s, j))) + multiset{f(s[j])}
  {
    var a, b := s[..j], s[j + 1..];
    assert s == a + ([s[j]] + b);
    MapAppend(f, a, [s[j]] + b);
    MapAppend(f, a, b);
    assert ([s[j]] + b)[1..] == b;
    assert Map(f, s) == Map(f, a) + ([f(s[j])] + Map(f, b));
  }

  function Without<T>(s: seq<T>, j: nat): (r: seq<T>)
    requires j < |s|
    ensures |r| == |s| - 1
  {
    s[..j] + s[j + 1..]
  }

  // On these elements `norm` depends only on `bag`.
  ghost predicate DependsOn<A(!new), B, C>(bag: A -> B, norm: A -> C, s: seq<A>, t: seq<A>) {
    forall x, y | x in s && y in t && bag(x) == bag(y) :: norm(x) == norm(y)
  }

  lemma {:induction false} CancelOne<T>(a: multiset<T>, b: multiset<T>, x: T)
    requires a + multiset{x} == b + multiset{x}
    ensures a == b
  {
    assert a == a + multiset{x} - multiset{x};
  }

  lemma {:induction false} FindBag<A, B>(bag: A -> B, s: seq<A>, t: seq<A>) returns (j: nat)
    requires s != [] && multiset(Map(bag, s)) == multiset(Map(bag, t))
    ensures j < |t| && bag(t[j]) == bag(s[0])
    ensures multiset(Map(bag, s[1..])) == multiset(Map(bag, Without(t, j)))
  {
    MapWithout(bag, s, 0);
    assert Without(s, 0) == s[1..];
    hide Without, Map;
    var mapped := Map(bag, t);
    assert bag(s[0]) in multiset(mapped);
    assert bag(s[0]) in mapped;
    j :| 0 <= j < |mapped| && mapped[j] == bag(s[0]);
    MapAt(bag, t, j);
    MapWithout(bag, t, j);
    CancelOne(multiset(Map(bag, s[1..])), multiset(Map(bag, Without(t, j))), bag(s[0]));
  }

  // When `norm` depends only on `bag`, mapped bags that agree as multisets make
  // mapped norms that agree as multisets.
  lemma {:induction false} MapFactors<A(!new), B, C>(bag: A -> B, norm: A -> C, s: seq<A>, t: seq<A>)
    requires DependsOn(bag, norm, s, t) && multiset(Map(bag, s)) == multiset(Map(bag, t))
    ensures multiset(Map(norm, s)) == multiset(Map(norm, t))
    decreases |s|
  {
    if s == [] {
      assert |multiset(Map(bag, t))| == |t|;
    } else {
      var j := FindBag(bag, s, t);
      assert norm(s[0]) == norm(t[j]) by {
        assert s[0] in s && t[j] in t;
      }
      assert DependsOn(bag, norm, s[1..], Without(t, j));
      assert Without(s, 0) == s[1..];
      hide DependsOn, Map, Without;
      MapFactors(bag, norm, s[1..], Without(t, j));
      MapWithout(norm, s, 0);
      MapWithout(norm, t, j);
    }
  }

  lemma {:induction false} MapIdentity<A>(f: A -> A, s: seq<A>)
    requires forall x | x in s :: f(x) == x
    ensures Map(f, s) == s
  {
    MapAll(f, s);
  }

  lemma {:induction false} MapForgetsOrder<A(!new), B>(f: A -> B, s: seq<A>, t: seq<A>)
    requires multiset(s) == multiset(t)
    ensures multiset(Map(f, s)) == multiset(Map(f, t))
  {
    var id := (x: A) => x;
    MapIdentity(id, s);
    MapIdentity(id, t);
    MapFactors(id, f, s, t);
  }
}

// Strings as the runtime sees them: sequences of UTF-16 code units,
// compared unit by unit,
// and sorting by a key that is such a string.
module Texts {
  import opened Prelude

  type CodeUnit = c: int | 0 <= c < 0x1_0000 witness 0

  type Text = seq<CodeUnit>

  function Lit(s: string): Text {
    seq(|s|, i requires 0 <= i < |s| => s[i] as int % 0x1_0000)
  }

  // The order `left < right` on strings compares by.
  predicate Le(a: Text, b: Text) {
    if a == [] then true
    else if b == [] then false
    else a[0] < b[0] || (a[0] == b[0] && Le(a[1..], b[1..]))
  }

  lemma {:induction false} LeTotal(a: Text, b: Text)
    ensures Le(a, b) || Le(b, a)
  {
    if a != [] && b != [] && a[0] == b[0] {
      LeTotal(a[1..], b[1..]);
    }
  }

  lemma {:induction false} LeTransitive(a: Text, b: Text, c: Text)
    requires Le(a, b) && Le(b, c)
    ensures Le(a, c)
  {
    if a != [] && b != [] && c != [] && a[0] == b[0] == c[0] {
      LeTransitive(a[1..], b[1..], c[1..]);
    }
  }

  lemma {:induction false} LeAntisymmetric(a: Text, b: Text)
    requires Le(a, b) && Le(b, a)
    ensures a == b
  {
    if a != [] {
      LeAntisymmetric(a[1..], b[1..]);
      assert a == [a[0]] + a[1..] && b == [b[0]] + b[1..];
    }
  }

  const SameText: Text -> Text := (t: Text) => t

  // Comparing by a key of type Text is a total preorder.
  function ByKey<T>(key: T -> Text): (T, T) -> bool {
    (a, b) => Le(key(a), key(b))
  }

  lemma {:induction false} ByKeyTotal<T(!new)>(key: T -> Text)
    ensures TotalPreorder(ByKey(key))
  {
    forall a, b ensures ByKey(key)(a, b) || ByKey(key)(b, a) {
      LeTotal(key(a), key(b));
    }
    forall a, b, c | ByKey(key)(a, b) && ByKey(key)(b, c) ensures ByKey(key)(a, c) {
      LeTransitive(key(a), key(b), key(c));
    }
  }

  // Elements with different keys are told apart by the order on keys.
  lemma {:induction false} ByKeySeparates<T(!new)>(key: T -> Text, s: seq<T>)
    requires forall a, b | a in s && b in s && key(a) == key(b) :: a == b
    ensures SeparatesElementsOf(ByKey(key), multiset(s))
  {
    forall a, b | a in multiset(s) && b in multiset(s) && ByKey(key)(a, b) && ByKey(key)(b, a) ensures a == b {
      LeAntisymmetric(key(a), key(b));
      assert a in s && b in s;
    }
  }

  // Sorting by a key that tells the elements apart forgets their order.
  lemma {:induction false} SortByKeyForgetsOrder<T(!new)>(key: T -> Text, a: seq<T>, b: seq<T>)
    requires multiset(a) == multiset(b)
    requires forall x, y | x in a && y in a && key(x) == key(y) :: x == y
    ensures Sort(ByKey(key), a) == Sort(ByKey(key), b)
  {
    ByKeyTotal(key);
    ByKeySeparates(key, a);
    SortForgetsOrder(ByKey(key), a, b);
  }
}

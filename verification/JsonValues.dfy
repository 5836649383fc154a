// Building blocks for the records that are printed:
// numbers, lists of strings,
// and objects with the same keys.
module JsonValues {
  import opened Texts
  import opened CanonicalJson
  import opened CanonicalUniqueness

  // ------------------------------------------------------------------ numbers

  function Decimal(n: nat): Text {
    (if n < 10 then [] else Decimal(n / 10)) + [48 + n % 10]
  }

  lemma {:induction false} DecimalIsNumeral(n: nat)
    ensures Numeral(Decimal(n)) && 48 <= Decimal(n)[0] <= 57
  {
    if n >= 10 {
      DecimalIsNumeral(n / 10);
    }
  }

  lemma {:induction false} OneDigit(n: nat)
    ensures |Decimal(n)| == 1 <==> n < 10
  {
    if n >= 10 {
      DecimalIsNumeral(n / 10);
    }
  }

  lemma {:induction false} DecimalInjective(a: nat, b: nat)
    requires Decimal(a) == Decimal(b)
    ensures a == b
    decreases a
  {
    var s, t := Decimal(a), Decimal(b);
    assert s[|s| - 1] == 48 + a % 10 && t[|t| - 1] == 48 + b % 10;
    OneDigit(a);
    OneDigit(b);
    if a >= 10 {
      assert s[..|s| - 1] == Decimal(a / 10) && t[..|t| - 1] == Decimal(b / 10);
      DecimalInjective(a / 10, b / 10);
    }
  }

  // ---------------------------------------------------------- lists of strings

  function Strings(texts: seq<Text>): (r: seq<Json>)
    ensures |r| == |texts|
    ensures forall i :: 0 <= i < |r| ==> r[i] == Str(texts[i])
  {
    if texts == [] then [] else [Str(texts[0])] + Strings(texts[1..])
  }

  lemma {:induction false} SameStrings(a: seq<Text>, b: seq<Text>)
    requires Same(false, Arr(Strings(a)), Arr(Strings(b)))
    ensures a == b
  {
    forall i | 0 <= i < |a| ensures a[i] == b[i] {
      assert Same(false, Strings(a)[i], Strings(b)[i]);
    }
  }

  // ------------------------------------------------- objects of one shape

  predicate SameKeys(f: seq<Field>, g: seq<Field>) {
    |f| == |g| && forall i :: 0 <= i < |f| ==> f[i].key == g[i].key
  }

  ghost predicate SameValue(v: Json, w: Json) {
    (v.Absent? && w.Absent?) || (!v.Absent? && !w.Absent? && Same(false, v, w))
  }

  // Objects that are the same agree field by field.
  lemma {:induction false} SameObjectsAgree(f: seq<Field>, g: seq<Field>, i: nat)
    requires Same(false, Obj(f), Obj(g)) && SameKeys(f, g) && DistinctKeys(f) && i < |f|
    ensures SameValue(f[i].value, g[i].value)
  {
    assert HasKey(false, f, f[i].key) <==> Present(false, f[i]);
    assert HasKey(false, g, f[i].key) <==> Present(false, g[i]);
  }

  // A field both objects have must agree.
  lemma {:induction false} SharedFieldAgrees(f: seq<Field>, g: seq<Field>, i: nat, j: nat)
    requires Same(false, Obj(f), Obj(g)) && i < |f| && j < |g| && f[i].key == g[j].key
    requires Present(false, f[i]) && Present(false, g[j])
    ensures Same(false, f[i].value, g[j].value)
  {
  }

  lemma {:induction false} ScalarsAgree(v: Json, w: Json)
    requires SameValue(v, w) && !v.Arr? && !v.Obj?
    ensures v == w
  {
  }

  lemma {:induction false} SameScalars(f: seq<Field>, g: seq<Field>, i: nat)
    requires Same(false, Obj(f), Obj(g)) && SameKeys(f, g) && DistinctKeys(f) && i < |f|
    requires !f[i].value.Arr? && !f[i].value.Obj?
    ensures f[i].value == g[i].value
  {
    hide Same, DistinctKeys, SameValue;
    SameObjectsAgree(f, g, i);
    ScalarsAgree(f[i].value, g[i].value);
  }

  lemma {:induction false} ObjectWellFormed(fields: seq<Field>)
    requires DistinctKeys(fields)
    requires forall i :: 0 <= i < |fields| ==> Printable(fields[i].value)
    ensures WellFormed(Obj(fields))
  {
  }
}

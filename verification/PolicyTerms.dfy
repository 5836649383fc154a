// Terms of a data scope: their text determines them, and normalising them
// forgets the order they were written in and settles.
module PolicyTerms {
  import opened Prelude
  import opened Texts
  import opened CanonicalJson
  import opened CanonicalUniqueness
  import opened JsonValues
  import opened PolicyModel

  // ---------------------------------------------------------- text of a term

  lemma {:induction false} TermKeys()
    ensures Lit("dimension") != Lit("values") && Lit("constraints") != Lit("kind") && Lit("all") != Lit("match")
  {
    assert |Lit("dimension")| == 9 && |Lit("values")| == 6 && |Lit("constraints")| == 11 && |Lit("kind")| == 4;
    assert |Lit("all")| == 3 && |Lit("match")| == 5;
  }

  lemma {:induction false} ConstraintWellFormed(c: Constraint)
    ensures WellFormed(ConstraintJson(c)) && DistinctKeys(ConstraintJson(c).fields)
  {
    TermKeys();
    hide Lit;
    assert WellFormed(Arr(Strings(c.values)));
  }

  lemma {:induction false} TermWellFormed(t: Term)
    ensures WellFormed(TermJson(t)) && DistinctKeys(TermJson(t).fields)
  {
    TermKeys();
    if t.Match? {
      forall i | 0 <= i < |t.constraints| ensures WellFormed(ConstraintsJson(t.constraints)[i]) {
        ConstraintWellFormed(t.constraints[i]);
      }
      hide Lit;
      assert WellFormed(Arr(ConstraintsJson(t.constraints)));
    }
  }

  lemma {:induction false} SameConstraints(c: Constraint, d: Constraint)
    requires Same(false, ConstraintJson(c), ConstraintJson(d))
    ensures c == d
  {
    var f, g := ConstraintJson(c).fields, ConstraintJson(d).fields;
    ConstraintWellFormed(c);
    hide Lit, Same, DistinctKeys, WellFormed;
    SameScalars(f, g, 0);
    SameObjectsAgree(f, g, 1);
    SameStrings(c.values, d.values);
  }

  lemma {:induction false} SameConstraintLists(cs: seq<Constraint>, ds: seq<Constraint>)
    requires Same(false, Arr(ConstraintsJson(cs)), Arr(ConstraintsJson(ds)))
    ensures cs == ds
  {
    forall i | 0 <= i < |cs| ensures cs[i] == ds[i] {
      assert Same(false, ConstraintsJson(cs)[i], ConstraintsJson(ds)[i]);
      SameConstraints(cs[i], ds[i]);
    }
  }

  lemma {:induction false} AllIsNotMatch(cs: seq<Constraint>)
    ensures !Same(false, TermJson(All), TermJson(Match(cs))) && !Same(false, TermJson(Match(cs)), TermJson(All))
  {
    TermKeys();
    hide Lit, ConstraintsJson, HasKey;
    var f, g := TermJson(All).fields, TermJson(Match(cs)).fields;
    assert f[0].key == g[1].key && Present(false, f[0]) && Present(false, g[1]);
    assert !Same(false, f[0].value, g[1].value) && !Same(false, g[1].value, f[0].value);
  }

  lemma {:induction false} SameTerms(t: Term, u: Term)
    requires Same(false, TermJson(t), TermJson(u))
    ensures t == u
  {
    var f, g := TermJson(t).fields, TermJson(u).fields;
    TermWellFormed(t);
    TermKeys();
    hide Lit, Same, DistinctKeys, WellFormed, ConstraintsJson;
    if t.Match? && u.Match? {
      SameObjectsAgree(f, g, 0);
      SameConstraintLists(t.constraints, u.constraints);
    } else if t.Match? {
      AllIsNotMatch(t.constraints);
    } else if u.Match? {
      AllIsNotMatch(u.constraints);
    }
  }

  // Comparing and deduplicating terms by their text is comparing the terms.
  lemma {:induction false} TermTextDecides(t: Term, u: Term)
    requires TermText(t) == TermText(u)
    ensures t == u
  {
    TermWellFormed(t);
    TermWellFormed(u);
    CanonicalTextDecides(false, TermJson(t), TermJson(u));
    SameTerms(t, u);
  }

  // ------------------------------------------------------------ deduplication

  lemma {:induction false} DedupeContents(s: seq<Term>)
    ensures Distinct(DedupeBy(TermText, s))
    ensures forall t :: t in DedupeBy(TermText, s) <==> t in s
    decreases |s|
  {
    hide TermText;
    if s != [] {
      var n := |s| - 1;
      DedupeContents(s[..n]);
      var rest := DedupeBy(TermText, s[..n]);
      assert s == s[..n] + [s[n]];
      if i :| 0 <= i < n && TermText(s[i]) == TermText(s[n]) {
        TermTextDecides(s[i], s[n]);
        assert s[n] in s[..n];
      } else {
        forall i | 0 <= i < n ensures s[..n][i] != s[n] {
          assert TermText(s[i]) != TermText(s[n]);
        }
        assert s[n] !in s[..n] && s[n] !in rest;
      }
    }
  }

  lemma {:induction false} DedupeOfDistinct(s: seq<Term>)
    requires Distinct(s)
    ensures DedupeBy(TermText, s) == s
    decreases |s|
  {
    hide TermText;
    if s != [] {
      var n := |s| - 1;
      DedupeOfDistinct(s[..n]);
      forall i | 0 <= i < n ensures TermText(s[i]) != TermText(s[n]) {
        if TermText(s[i]) == TermText(s[n]) {
          TermTextDecides(s[i], s[n]);
        }
      }
      assert s == s[..n] + [s[n]];
    }
  }

  lemma {:induction false} DedupeForgetsOrder(s: seq<Term>, t: seq<Term>)
    requires multiset(s) == multiset(t)
    ensures multiset(DedupeBy(TermText, s)) == multiset(DedupeBy(TermText, t))
  {
    DedupeContents(s);
    DedupeContents(t);
    SameMembers(s, t);
    hide TermText;
    SameContents(DedupeBy(TermText, s), DedupeBy(TermText, t));
  }

  lemma {:induction false} TextSeparatesTerms(s: seq<Term>)
    ensures forall t, u | t in s && u in s && TermText(t) == TermText(u) :: t == u
  {
    forall t, u | t in s && u in s && TermText(t) == TermText(u) ensures t == u {
      TermTextDecides(t, u);
    }
  }

  lemma {:induction false} NormTermsForgetOrder(s: seq<Term>, t: seq<Term>)
    requires multiset(s) == multiset(t)
    ensures NormTerms(s) == NormTerms(t)
  {
    SameMembers(s, t);
    DedupeForgetsOrder(s, t);
    TextSeparatesTerms(DedupeBy(TermText, s));
    hide TermText;
    SortByKeyForgetsOrder(TermText, DedupeBy(TermText, s), DedupeBy(TermText, t));
  }

  // ------------------------------------------------------------------ sorting

  // Sorting by a key that tells the elements apart settles after one pass.
  lemma {:induction false} SortByKeySettles<T(!new)>(key: T -> Text, s: seq<T>)
    requires forall a, b | a in s && b in s && key(a) == key(b) :: a == b
    ensures Sort(ByKey(key), Sort(ByKey(key), s)) == Sort(ByKey(key), s)
  {
    ByKeyTotal(key);
    SortContents(ByKey(key), s);
    SortSorted(ByKey(key), s);
    ByKeySeparates(key, s);
    SortOfSorted(ByKey(key), Sort(ByKey(key), s));
  }

  lemma {:induction false} SortTextsSettles(s: seq<Text>)
    ensures SortTexts(SortTexts(s)) == SortTexts(s)
    ensures multiset(SortTexts(s)) == multiset(s) && |SortTexts(s)| == |s|
  {
    SortByKeySettles(SameText, s);
    SortContents(ByKey(SameText), s);
  }

  lemma {:induction false} SortTextsForgetsOrder(s: seq<Text>, t: seq<Text>)
    requires multiset(s) == multiset(t)
    ensures SortTexts(s) == SortTexts(t)
  {
    SortByKeyForgetsOrder(SameText, s, t);
  }

  // Elements of a list whose keys are distinct are told apart by them.
  lemma {:induction false} DistinctKeysSeparate<T(!new)>(key: T -> Text, s: seq<T>)
    requires Distinct(Map(key, s))
    ensures forall a, b | a in s && b in s && key(a) == key(b) :: a == b
  {
    MapAll(key, s);
    hide Map;
    forall a, b | a in s && b in s && key(a) == key(b) ensures a == b {
      var i :| 0 <= i < |s| && s[i] == a;
      var j :| 0 <= j < |s| && s[j] == b;
      assert Map(key, s)[i] == Map(key, s)[j];
    }
  }

  // -------------------------------------------------------------- constraints

  lemma {:induction false} ConstraintSettles(c: Constraint)
    ensures NormConstraint(NormConstraint(c)) == NormConstraint(c)
  {
    SortTextsSettles(c.values);
  }

  lemma {:induction false} NormKeepsDimensions(cs: seq<Constraint>)
    ensures Map(DimensionOf, Map(NormConstraint, cs)) == Map(DimensionOf, cs)
  {
    MapAll(NormConstraint, cs);
    MapAll(DimensionOf, cs);
    MapAll(DimensionOf, Map(NormConstraint, cs));
  }

  lemma {:induction false} NormTermShape(dimensions: seq<Text>, t: Term)
    requires ValidTerm(dimensions, t) && t.Match?
    ensures var u := NormTerm(t);
      && multiset(u.constraints) == multiset(Map(NormConstraint, t.constraints)) && |u.constraints| == |t.constraints|
      && multiset(Map(DimensionOf, u.constraints)) == multiset(Map(DimensionOf, t.constraints))
      && Distinct(Map(DimensionOf, u.constraints))
      && Sort(ByKey(DimensionOf), u.constraints) == u.constraints
      && Map(NormConstraint, u.constraints) == u.constraints
  {
    var cs := Map(NormConstraint, t.constraints);
    NormKeepsDimensions(t.constraints);
    DistinctKeysSeparate(DimensionOf, cs);
    SortByKeySettles(DimensionOf, cs);
    SortContents(ByKey(DimensionOf), cs);
    var u := NormTerm(t);
    MapForgetsOrder(DimensionOf, u.constraints, cs);
    DistinctIsOrderFree(Map(DimensionOf, u.constraints), Map(DimensionOf, cs));
    SameMembers(u.constraints, cs);
    MapMembers(NormConstraint, t.constraints);
    hide Sort, Map;
    forall c | c in u.constraints ensures NormConstraint(c) == c {
      assert c in cs;
      var i :| 0 <= i < |t.constraints| && NormConstraint(t.constraints[i]) == c;
      ConstraintSettles(t.constraints[i]);
    }
    MapIdentity(NormConstraint, u.constraints);
  }

  lemma {:induction false} TermSettles(dimensions: seq<Text>, t: Term)
    requires ValidTerm(dimensions, t)
    ensures NormTerm(NormTerm(t)) == NormTerm(t) && CanonTerm(NormTerm(t)) == NormTerm(t)
  {
    if t.Match? {
      NormTermShape(dimensions, t);
    }
  }

  lemma {:induction false} NormConstraintStaysValid(dimensions: seq<Text>, dimensions': seq<Text>, c: Constraint)
    requires ValidConstraint(dimensions, c) && forall d :: d in dimensions <==> d in dimensions'
    ensures ValidConstraint(dimensions', NormConstraint(c))
  {
    SortTextsSettles(c.values);
    hide SortTexts;
    DistinctIsOrderFree(NormConstraint(c).values, c.values);
  }

  lemma {:induction false} NormTermMember(dimensions: seq<Text>, t: Term, c: Constraint)
    requires ValidTerm(dimensions, t) && t.Match? && c in NormTerm(t).constraints
    ensures exists d :: d in t.constraints && c == NormConstraint(d)
  {
    hide Map, NormConstraint, ValidTerm, Distinct;
    NormTermShape(dimensions, t);
    SameMembers(NormTerm(t).constraints, Map(NormConstraint, t.constraints));
    MapMembers(NormConstraint, t.constraints);
    assert c in Map(NormConstraint, t.constraints);
    var i :| 0 <= i < |t.constraints| && NormConstraint(t.constraints[i]) == c;
    assert t.constraints[i] in t.constraints;
  }

  lemma {:induction false} NormTermStaysValid(dimensions: seq<Text>, dimensions': seq<Text>, t: Term)
    requires ValidTerm(dimensions, t) && multiset(dimensions) == multiset(dimensions')
    ensures ValidTerm(dimensions', NormTerm(t))
  {
    assert |multiset(dimensions)| == |dimensions| && |multiset(dimensions')| == |dimensions'|;
    SameMembers(dimensions, dimensions');
    if t.Match? {
      NormTermShape(dimensions, t);
      var u := NormTerm(t);
      assert u.Match?;
      assert forall d :: d in t.constraints ==> ValidConstraint(dimensions, d);
      forall c | c in u.constraints ensures ValidConstraint(dimensions', c) {
        NormTermMember(dimensions, t, c);
        var d :| d in t.constraints && c == NormConstraint(d);
        NormConstraintStaysValid(dimensions, dimensions', d);
      }
      hide Map, NormTerm, ValidConstraint, Distinct;
    }
  }
}

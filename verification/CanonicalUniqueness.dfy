// The canonical text determines its value up to key order, and key order does not show in it.
module CanonicalUniqueness {
  import opened Prelude
  import opened Texts
  import opened CanonicalJson

  // What can follow a value inside a text.
  predicate Delimiter(c: CodeUnit) {
    c == COMMA || c == CLOSE_ARRAY || c == CLOSE_OBJECT
  }

  predicate Delimited(rest: Text) {
    rest == [] || Delimiter(rest[0])
  }

  predicate Starts(t: Text) {
    t != [] && !Delimiter(t[0])
  }

  // Two texts in front of delimited rests are told apart by what they are.
  ghost predicate Readable(t: Text, u: Text) {
    forall x, y | Delimited(x) && Delimited(y) && t + x == u + y :: t == u && x == y
  }

  // ---------------------------------------------------------------- strings

  lemma {:induction false} HexDigitInjective(d: nat, e: nat)
    requires d < 16 && e < 16 && HexDigit(d) == HexDigit(e)
    ensures d == e
  {
  }

  lemma {:induction false} HexDigitsOf(c: CodeUnit)
    ensures c == c / 4096 * 4096 + c / 256 % 16 * 256 + c / 16 % 16 * 16 + c % 16
  {
    assert c / 16 == c / 256 * 16 + c / 16 % 16;
    assert c / 256 == c / 4096 * 16 + c / 256 % 16;
  }

  lemma {:induction false} Hex4Injective(a: CodeUnit, b: CodeUnit)
    requires Hex4(a) == Hex4(b)
    ensures a == b
  {
    hide HexDigit;
    assert Hex4(a)[0] == Hex4(b)[0] && Hex4(a)[1] == Hex4(b)[1] && Hex4(a)[2] == Hex4(b)[2] && Hex4(a)[3] == Hex4(b)[3];
    HexDigitInjective(a / 4096, b / 4096);
    HexDigitInjective(a / 256 % 16, b / 256 % 16);
    HexDigitInjective(a / 16 % 16, b / 16 % 16);
    HexDigitInjective(a % 16, b % 16);
    HexDigitsOf(a);
    HexDigitsOf(b);
  }

  predicate Raw(c: CodeUnit) {
    c >= 32 && c != QUOTE && c != BACKSLASH && !High(c) && !Low(c)
  }

  lemma {:induction false} EscapedUnitReadable(a: CodeUnit, b: CodeUnit, x: Text, y: Text)
    requires EscapeUnit(a) + x == EscapeUnit(b) + y
    ensures a == b && x == y
  {
    var l, r := EscapeUnit(a) + x, EscapeUnit(b) + y;
    assert l[0] == EscapeUnit(a)[0] && r[0] == EscapeUnit(b)[0];
    if Raw(a) || Raw(b) {
    } else {
      assert l[1] == EscapeUnit(a)[1] && r[1] == EscapeUnit(b)[1];
      if l[1] == 117 {
        assert l[2..6] == Hex4(a) && r[2..6] == Hex4(b);
        Hex4Injective(a, b);
      }
    }
    assert l[|EscapeUnit(a)|..] == x && r[|EscapeUnit(b)|..] == y;
  }

  lemma {:induction false} PairIsNotAnEscape(s: Text, c: CodeUnit, x: Text, y: Text)
    requires StartsWithPair(s)
    ensures [s[0], s[1]] + x != EscapeUnit(c) + y
  {
    assert ([s[0], s[1]] + x)[0] == s[0] && (EscapeUnit(c) + y)[0] == EscapeUnit(c)[0];
  }

  lemma {:induction false} EscapeNeverStartsWithQuote(s: Text, rest: Text)
    requires s != []
    ensures Escape(s) != [] && (Escape(s) + rest)[0] != QUOTE
  {
  }

  // What is left of an escaped string after its first unit or pair.
  function EscapeTail(s: Text, rest: Text): Text
    requires s != []
  {
    Escape(if StartsWithPair(s) then s[2..] else s[1..]) + [QUOTE] + rest
  }

  lemma {:induction false} EscapeUnfolds(s: Text, rest: Text)
    requires s != []
    ensures StartsWithPair(s) ==> Escape(s) + [QUOTE] + rest == [s[0], s[1]] + EscapeTail(s, rest)
    ensures !StartsWithPair(s) ==> Escape(s) + [QUOTE] + rest == EscapeUnit(s[0]) + EscapeTail(s, rest)
  {
    hide EscapeUnit, StartsWithPair;
  }

  lemma {:induction false} HeadsAgree(a: Text, b: Text, x: Text, y: Text)
    requires a != [] && b != [] && Escape(a) + [QUOTE] + x == Escape(b) + [QUOTE] + y
    ensures a[0] == b[0] && StartsWithPair(a) == StartsWithPair(b) && (StartsWithPair(a) ==> a[1] == b[1])
    ensures EscapeTail(a, x) == EscapeTail(b, y)
  {
    EscapeUnfolds(a, x);
    EscapeUnfolds(b, y);
    var l, r := EscapeTail(a, x), EscapeTail(b, y);
    hide Escape, EscapeTail, EscapeUnit;
    if StartsWithPair(a) && StartsWithPair(b) {
      var la, rb := [a[0], a[1]] + l, [b[0], b[1]] + r;
      assert la[0] == rb[0] && la[1] == rb[1] && la[2..] == l && rb[2..] == r;
    } else if StartsWithPair(a) {
      PairIsNotAnEscape(a, b[0], l, r);
    } else if StartsWithPair(b) {
      PairIsNotAnEscape(b, a[0], r, l);
    } else {
      EscapedUnitReadable(a[0], b[0], l, r);
    }
  }

  lemma {:induction false} EmptyIsTold(b: Text, x: Text, y: Text)
    requires b != []
    ensures Escape([]) + [QUOTE] + x != Escape(b) + [QUOTE] + y
  {
    assert (Escape([]) + [QUOTE] + x)[0] == QUOTE;
    assert Escape(b) + [QUOTE] + y == Escape(b) + ([QUOTE] + y);
    EscapeNeverStartsWithQuote(b, [QUOTE] + y);
  }

  lemma {:induction false} EscapeReadable(a: Text, b: Text, x: Text, y: Text)
    requires Escape(a) + [QUOTE] + x == Escape(b) + [QUOTE] + y
    ensures a == b && x == y
    decreases |a|
  {
    if a == [] || b == [] {
      if b != [] {
        EmptyIsTold(b, x, y);
      } else if a != [] {
        EmptyIsTold(a, y, x);
      }
      assert (Escape(a) + [QUOTE] + x)[1..] == x && (Escape(b) + [QUOTE] + y)[1..] == y;
    } else {
      HeadsAgree(a, b, x, y);
      hide EscapeUnit, Escape;
      if StartsWithPair(a) {
        EscapeReadable(a[2..], b[2..], x, y);
        assert a == [a[0], a[1]] + a[2..] && b == [b[0], b[1]] + b[2..];
      } else {
        EscapeReadable(a[1..], b[1..], x, y);
        assert a == [a[0]] + a[1..] && b == [b[0]] + b[1..];
      }
    }
  }

  // A quoted string ends where it ends, whatever follows.
  lemma {:induction false} QuotedReadable(a: Text, b: Text, x: Text, y: Text)
    requires Quoted(a) + x == Quoted(b) + y
    ensures a == b && x == y
  {
    var l, r := Escape(a) + [QUOTE] + x, Escape(b) + [QUOTE] + y;
    assert Quoted(a) + x == [QUOTE] + l && Quoted(b) + y == [QUOTE] + r;
    assert ([QUOTE] + l)[1..] == l && ([QUOTE] + r)[1..] == r;
    EscapeReadable(a, b, x, y);
  }

  // ---------------------------------------------------------------- numbers

  lemma {:induction false} NumeralIsReadWhole(t: Text, u: Text, x: Text, y: Text)
    requires Numeral(u) && Delimited(x) && |t| < |u|
    ensures t + x != u + y
  {
    assert (u + y)[|t|] == u[|t|] && !Delimiter(u[|t|]);
    if x != [] {
      assert (t + x)[|t|] == x[0];
    }
  }

  lemma {:induction false} NumeralsReadable(t: Text, u: Text)
    requires Numeral(t) && Numeral(u)
    ensures Readable(t, u)
  {
    forall x, y | Delimited(x) && Delimited(y) && t + x == u + y ensures t == u && x == y {
      var l, r := t + x, u + y;
      if |t| < |u| {
        NumeralIsReadWhole(t, u, x, y);
      } else if |u| < |t| {
        NumeralIsReadWhole(u, t, y, x);
      }
      assert l[..|t|] == t && r[..|u|] == u && l[|t|..] == x && r[|u|..] == y;
    }
  }

  // ------------------------------------------------------------ joined texts

  lemma {:induction false} JoinUnfolds(ts: seq<Text>, close: CodeUnit, x: Text)
    requires ts != [] && Delimiter(close)
    ensures exists rest :: Delimited(rest) && Join(ts) + [close] + x == ts[0] + rest && rest != []
                           && (|ts| == 1 ==> rest == [close] + x)
                           && (|ts| > 1 ==> rest == [COMMA] + (Join(ts[1..]) + [close] + x))
  {
    var rest := if |ts| == 1 then [close] + x else [COMMA] + (Join(ts[1..]) + [close] + x);
    assert Join(ts) + [close] + x == ts[0] + rest;
  }

  lemma {:induction false} JoinStarts(ts: seq<Text>, rest: Text)
    requires ts != [] && Starts(ts[0])
    ensures Join(ts) != [] && (Join(ts) + rest)[0] == ts[0][0]
  {
  }

  // A bracketed list of readable texts is readable, whatever follows it.
  lemma {:induction false} JoinReadable(ts: seq<Text>, us: seq<Text>, close: CodeUnit, x: Text, y: Text)
    requires forall t :: t in ts ==> Starts(t)
    requires forall u :: u in us ==> Starts(u)
    requires forall t, u :: t in ts && u in us ==> Readable(t, u)
    requires Delimiter(close) && close != COMMA
    requires Join(ts) + [close] + x == Join(us) + [close] + y
    ensures ts == us && x == y
    decreases |ts|
  {
    var l, r := Join(ts) + [close] + x, Join(us) + [close] + y;
    assert l == Join(ts) + ([close] + x) && r == Join(us) + ([close] + y);
    if ts == [] || us == [] {
      if ts != [] {
        JoinStarts(ts, [close] + x);
      }
      if us != [] {
        JoinStarts(us, [close] + y);
      }
      assert l[1..] == x && r[1..] == y;
    } else {
      JoinUnfolds(ts, close, x);
      JoinUnfolds(us, close, y);
      var lx :| Delimited(lx) && l == ts[0] + lx && lx != []
        && (|ts| == 1 ==> lx == [close] + x) && (|ts| > 1 ==> lx == [COMMA] + (Join(ts[1..]) + [close] + x));
      var ry :| Delimited(ry) && r == us[0] + ry && ry != []
        && (|us| == 1 ==> ry == [close] + y) && (|us| > 1 ==> ry == [COMMA] + (Join(us[1..]) + [close] + y));
      assert Readable(ts[0], us[0]);
      assert ts[0] == us[0] && lx == ry;
      assert lx[1..] == ry[1..];
      assert ts == [ts[0]] + ts[1..] && us == [us[0]] + us[1..];
      if |ts| > 1 {
        JoinReadable(ts[1..], us[1..], close, x, y);
      }
    }
  }

  // ----------------------------------------------------------------- entries

  lemma {:induction false} EntriesReadable(e: Entry, f: Entry)
    requires Readable(e.text, f.text)
    ensures Readable(EntryText(e), EntryText(f))
    ensures EntryText(e) == EntryText(f) ==> e == f
  {
    forall x, y | Delimited(x) && Delimited(y) && EntryText(e) + x == EntryText(f) + y ensures e == f && x == y {
      assert EntryText(e) + x == Quoted(e.key) + ([COLON] + (e.text + x));
      assert EntryText(f) + y == Quoted(f.key) + ([COLON] + (f.text + y));
      QuotedReadable(e.key, f.key, [COLON] + (e.text + x), [COLON] + (f.text + y));
      assert ([COLON] + (e.text + x))[1..] == e.text + x && ([COLON] + (f.text + y))[1..] == f.text + y;
    }
    if EntryText(e) == EntryText(f) {
      assert EntryText(e) + [] == EntryText(f) + [];
    }
  }

  lemma {:induction false} EntryStarts(e: Entry)
    ensures Starts(EntryText(e))
  {
    assert EntryText(e)[0] == QUOTE;
  }

  lemma {:induction false} EntryTextsStart(es: seq<Entry>)
    ensures forall t :: t in EntryTexts(es) ==> Starts(t)
  {
    var ts := EntryTexts(es);
    hide EntryText, Starts;
    forall t | t in ts ensures Starts(t) {
      var i :| 0 <= i < |ts| && ts[i] == t;
      EntryStarts(es[i]);
    }
  }

  // The entries of two objects in the order they are printed.
  lemma {:induction false} EntryListsReadable(es: seq<Entry>, fs: seq<Entry>, x: Text, y: Text)
    requires forall e, f :: e in es && f in fs ==> Readable(e.text, f.text)
    requires Join(EntryTexts(es)) + [CLOSE_OBJECT] + x == Join(EntryTexts(fs)) + [CLOSE_OBJECT] + y
    ensures es == fs && x == y
  {
    hide EntryText, Join, Readable, Starts, EntryTexts;
    var ts, us := EntryTexts(es), EntryTexts(fs);
    EntryTextsStart(es);
    EntryTextsStart(fs);
    forall t, u | t in ts && u in us ensures Readable(t, u) {
      var i :| 0 <= i < |ts| && ts[i] == t;
      var j :| 0 <= j < |us| && us[j] == u;
      EntriesReadable(es[i], fs[j]);
    }
    JoinReadable(ts, us, CLOSE_OBJECT, x, y);
    forall i | 0 <= i < |es| ensures es[i] == fs[i] {
      assert ts[i] == us[i];
      EntriesReadable(es[i], fs[i]);
    }
  }

  lemma {:induction false} FieldEntries(keepsAbsent: bool, fields: seq<Field>, e: Entry)
    ensures e in PrintFields(keepsAbsent, fields) <==>
            exists i :: 0 <= i < |fields| && Present(keepsAbsent, fields[i]) && e == Entry(fields[i].key, Print(keepsAbsent, fields[i].value))
  {
    hide Print;
    if fields != [] {
      var rest := fields[1..];
      FieldEntries(keepsAbsent, rest, e);
      if exists i :: 0 <= i < |rest| && Present(keepsAbsent, rest[i]) && e == Entry(rest[i].key, Print(keepsAbsent, rest[i].value)) {
        var i :| 0 <= i < |rest| && Present(keepsAbsent, rest[i]) && e == Entry(rest[i].key, Print(keepsAbsent, rest[i].value));
        assert fields[i + 1] == rest[i];
      }
      if exists i :: 0 <= i < |fields| && Present(keepsAbsent, fields[i]) && e == Entry(fields[i].key, Print(keepsAbsent, fields[i].value)) {
        var i :| 0 <= i < |fields| && Present(keepsAbsent, fields[i]) && e == Entry(fields[i].key, Print(keepsAbsent, fields[i].value));
        if i > 0 {
          assert rest[i - 1] == fields[i];
        }
      }
    }
  }

  predicate DistinctKeys(fields: seq<Field>) {
    forall i, j :: 0 <= i < j < |fields| ==> fields[i].key != fields[j].key
  }

  // The printed entries of an object have distinct keys.
  lemma {:induction false} EntriesDistinct(keepsAbsent: bool, fields: seq<Field>)
    requires DistinctKeys(fields)
    ensures Distinct(PrintFields(keepsAbsent, fields))
    ensures forall e, f :: e in PrintFields(keepsAbsent, fields) && f in PrintFields(keepsAbsent, fields) && e.key == f.key ==> e == f
  {
    var es := PrintFields(keepsAbsent, fields);
    forall e, f | e in es && f in es && e.key == f.key ensures e == f {
      FieldEntries(keepsAbsent, fields, e);
      FieldEntries(keepsAbsent, fields, f);
    }
    if fields != [] {
      EntriesDistinct(keepsAbsent, fields[1..]);
      var rest := PrintFields(keepsAbsent, fields[1..]);
      if Present(keepsAbsent, fields[0]) {
        assert es == [es[0]] + rest;
        assert es[0] !in rest by {
          if es[0] in rest {
            FieldEntries(keepsAbsent, fields[1..], es[0]);
          }
        }
        forall i, j | 0 <= i < j < |es| ensures es[i] != es[j] {
          if i > 0 {
            assert es[i] == rest[i - 1];
          }
          assert es[j] == rest[j - 1];
        }
      }
    }
  }

  // ------------------------------------------------------------- the theorem

  ghost predicate Printable(v: Json) {
    v.Absent? || WellFormed(v)
  }

  function Head(v: Json): CodeUnit
    requires v.Num? ==> v.digits != []
  {
    match v
    case Null => 110
    case Bool(truth) => if truth then 116 else 102
    case Num(digits) => digits[0]
    case Str(_) => QUOTE
    case Arr(_) => OPEN_ARRAY
    case Obj(_) => OPEN_OBJECT
    case Absent => 117
  }

  lemma {:induction false} PrintStarts(keepsAbsent: bool, v: Json)
    requires Printable(v)
    ensures Starts(Print(keepsAbsent, v)) && Print(keepsAbsent, v)[0] == Head(v)
  {
    hide Escape, Join, EntryTexts, Sort;
  }

  lemma {:induction false} DifferentHeads(t: Text, u: Text)
    requires t != [] && u != [] && t[0] != u[0]
    ensures Readable(t, u)
  {
    forall x, y ensures t + x != u + y {
      assert (t + x)[0] == t[0] && (u + y)[0] == u[0];
    }
  }

  lemma {:induction false} SameTextReadable(t: Text)
    ensures Readable(t, t)
  {
    forall x, y | Delimited(x) && Delimited(y) && t + x == t + y ensures x == y {
      assert (t + x)[|t|..] == x && (t + y)[|t|..] == y;
    }
  }

  lemma {:induction false} StringsReadable(a: Text, b: Text)
    ensures Readable(Quoted(a), Quoted(b)) && (Quoted(a) == Quoted(b) ==> a == b)
  {
    forall x, y | Delimited(x) && Delimited(y) && Quoted(a) + x == Quoted(b) + y ensures Quoted(a) == Quoted(b) && x == y {
      QuotedReadable(a, b, x, y);
    }
    if Quoted(a) == Quoted(b) {
      QuotedReadable(a, b, [], []);
    }
  }

  lemma {:induction false} BracketsReadable(open: CodeUnit, t: Text, u: Text, close: CodeUnit)
    requires forall x, y | t + [close] + x == u + [close] + y :: t == u && x == y
    ensures Readable([open] + t + [close], [open] + u + [close])
    ensures [open] + t + [close] == [open] + u + [close] ==> t == u
  {
    forall x, y | Delimited(x) && Delimited(y) && [open] + t + [close] + x == [open] + u + [close] + y ensures t == u && x == y {
      assert ([open] + t + [close] + x)[1..] == t + [close] + x;
      assert ([open] + u + [close] + y)[1..] == u + [close] + y;
    }
    if [open] + t + [close] == [open] + u + [close] {
      assert ([open] + t + [close])[1..] == t + [close] + [];
      assert ([open] + u + [close])[1..] == u + [close] + [];
    }
  }

  ghost predicate Told(keepsAbsent: bool, a: Json, b: Json) {
    && Readable(Print(keepsAbsent, a), Print(keepsAbsent, b))
    && (Print(keepsAbsent, a) == Print(keepsAbsent, b) ==> Same(keepsAbsent, a, b))
  }

  lemma {:induction false} ArraysTold(keepsAbsent: bool, xs: seq<Json>, ys: seq<Json>)
    requires forall v :: v in xs || v in ys ==> Printable(v)
    requires forall v, w :: v in xs && w in ys ==> Told(keepsAbsent, v, w)
    ensures Told(keepsAbsent, Arr(xs), Arr(ys))
  {
    var ts, us := PrintItems(keepsAbsent, xs), PrintItems(keepsAbsent, ys);
    forall t | t in ts ensures Starts(t) {
      var i :| 0 <= i < |ts| && ts[i] == t;
      PrintStarts(keepsAbsent, xs[i]);
    }
    forall u | u in us ensures Starts(u) {
      var i :| 0 <= i < |us| && us[i] == u;
      PrintStarts(keepsAbsent, ys[i]);
    }
    forall t, u | t in ts && u in us ensures Readable(t, u) {
      var i :| 0 <= i < |ts| && ts[i] == t;
      var j :| 0 <= j < |us| && us[j] == u;
      assert Told(keepsAbsent, xs[i], ys[j]);
    }
    forall x, y | Join(ts) + [CLOSE_ARRAY] + x == Join(us) + [CLOSE_ARRAY] + y ensures ts == us && x == y {
      JoinReadable(ts, us, CLOSE_ARRAY, x, y);
    }
    BracketsReadable(OPEN_ARRAY, Join(ts), Join(us), CLOSE_ARRAY);
    if Print(keepsAbsent, Arr(xs)) == Print(keepsAbsent, Arr(ys)) {
      assert Join(ts) + [CLOSE_ARRAY] + [] == Join(us) + [CLOSE_ARRAY] + [];
      forall i | 0 <= i < |xs| ensures Same(keepsAbsent, xs[i], ys[i]) {
        assert ts[i] == us[i];
        assert Told(keepsAbsent, xs[i], ys[i]);
      }
    }
  }

  lemma {:induction false} SameEntriesSameObject(keepsAbsent: bool, f: seq<Field>, g: seq<Field>)
    requires DistinctKeys(f) && DistinctKeys(g)
    requires forall i, j :: 0 <= i < |f| && 0 <= j < |g| ==> Told(keepsAbsent, f[i].value, g[j].value)
    requires forall e :: e in PrintFields(keepsAbsent, f) <==> e in PrintFields(keepsAbsent, g)
    ensures Same(keepsAbsent, Obj(f), Obj(g))
  {
    forall key ensures HasKey(keepsAbsent, f, key) <==> HasKey(keepsAbsent, g, key) {
      if HasKey(keepsAbsent, f, key) {
        var i :| 0 <= i < |f| && Present(keepsAbsent, f[i]) && f[i].key == key;
        FieldEntries(keepsAbsent, f, Entry(key, Print(keepsAbsent, f[i].value)));
        FieldEntries(keepsAbsent, g, Entry(key, Print(keepsAbsent, f[i].value)));
      }
      if HasKey(keepsAbsent, g, key) {
        var i :| 0 <= i < |g| && Present(keepsAbsent, g[i]) && g[i].key == key;
        FieldEntries(keepsAbsent, g, Entry(key, Print(keepsAbsent, g[i].value)));
        FieldEntries(keepsAbsent, f, Entry(key, Print(keepsAbsent, g[i].value)));
      }
    }
    forall i, j | 0 <= i < |f| && 0 <= j < |g| && f[i].key == g[j].key && Present(keepsAbsent, f[i]) && Present(keepsAbsent, g[j])
      ensures Same(keepsAbsent, f[i].value, g[j].value)
    {
      assert Told(keepsAbsent, f[i].value, g[j].value);
      FieldEntries(keepsAbsent, f, Entry(f[i].key, Print(keepsAbsent, f[i].value)));
      FieldEntries(keepsAbsent, g, Entry(f[i].key, Print(keepsAbsent, f[i].value)));
    }
  }

  lemma {:induction false} ObjectsTold(keepsAbsent: bool, f: seq<Field>, g: seq<Field>)
    requires DistinctKeys(f) && DistinctKeys(g)
    requires forall i, j :: 0 <= i < |f| && 0 <= j < |g| ==> Told(keepsAbsent, f[i].value, g[j].value)
    ensures Told(keepsAbsent, Obj(f), Obj(g))
  {
    var es, fs := PrintFields(keepsAbsent, f), PrintFields(keepsAbsent, g);
    var es', fs' := Sort(ByEntryKey, es), Sort(ByEntryKey, fs);
    SortMembers(ByEntryKey, es);
    SortMembers(ByEntryKey, fs);
    forall e, e' | e in es' && e' in fs' ensures Readable(e.text, e'.text) {
      FieldEntries(keepsAbsent, f, e);
      FieldEntries(keepsAbsent, g, e');
      var i :| 0 <= i < |f| && e == Entry(f[i].key, Print(keepsAbsent, f[i].value));
      var j :| 0 <= j < |g| && e' == Entry(g[j].key, Print(keepsAbsent, g[j].value));
      assert Told(keepsAbsent, f[i].value, g[j].value);
    }
    hide Readable, EntryText, Join, Sort;
    forall x, y | Join(EntryTexts(es')) + [CLOSE_OBJECT] + x == Join(EntryTexts(fs')) + [CLOSE_OBJECT] + y ensures es' == fs' && x == y {
      EntryListsReadable(es', fs', x, y);
    }
    BracketsReadable(OPEN_OBJECT, Join(EntryTexts(es')), Join(EntryTexts(fs')), CLOSE_OBJECT);
    if Print(keepsAbsent, Obj(f)) == Print(keepsAbsent, Obj(g)) {
      assert Join(EntryTexts(es')) + [CLOSE_OBJECT] + [] == Join(EntryTexts(fs')) + [CLOSE_OBJECT] + [];
      SameEntriesSameObject(keepsAbsent, f, g);
    }
  }

  lemma {:induction false} TextDecides(keepsAbsent: bool, a: Json, b: Json)
    requires Printable(a) && Printable(b)
    ensures Told(keepsAbsent, a, b)
    decreases a
  {
    PrintStarts(keepsAbsent, a);
    PrintStarts(keepsAbsent, b);
    if Head(a) != Head(b) {
      DifferentHeads(Print(keepsAbsent, a), Print(keepsAbsent, b));
    } else if a.Arr? {
      forall v, w | v in a.items && w in b.items ensures Told(keepsAbsent, v, w) {
        TextDecides(keepsAbsent, v, w);
      }
      ArraysTold(keepsAbsent, a.items, b.items);
    } else if a.Obj? {
      forall i, j | 0 <= i < |a.fields| && 0 <= j < |b.fields| ensures Told(keepsAbsent, a.fields[i].value, b.fields[j].value) {
        TextDecides(keepsAbsent, a.fields[i].value, b.fields[j].value);
      }
      ObjectsTold(keepsAbsent, a.fields, b.fields);
    } else if a.Str? {
      StringsReadable(a.chars, b.chars);
    } else if a.Num? {
      NumeralsReadable(a.digits, b.digits);
    } else {
      SameTextReadable(Print(keepsAbsent, a));
    }
  }

  // ----------------------------------------------------- ... and back again

  lemma {:induction false} SameFieldsSameEntries(keepsAbsent: bool, f: seq<Field>, g: seq<Field>, e: Entry)
    requires DistinctKeys(f) && DistinctKeys(g)
    requires forall key :: HasKey(keepsAbsent, f, key) ==> HasKey(keepsAbsent, g, key)
    requires forall i, j | 0 <= i < |f| && 0 <= j < |g| && f[i].key == g[j].key && Present(keepsAbsent, f[i]) && Present(keepsAbsent, g[j]) ::
               Print(keepsAbsent, f[i].value) == Print(keepsAbsent, g[j].value)
    requires e in PrintFields(keepsAbsent, f)
    ensures e in PrintFields(keepsAbsent, g)
  {
    FieldEntries(keepsAbsent, f, e);
    var i :| 0 <= i < |f| && Present(keepsAbsent, f[i]) && e == Entry(f[i].key, Print(keepsAbsent, f[i].value));
    assert HasKey(keepsAbsent, f, f[i].key);
    var j :| 0 <= j < |g| && Present(keepsAbsent, g[j]) && g[j].key == f[i].key;
    FieldEntries(keepsAbsent, g, e);
  }

  lemma {:induction false} SameEntriesSameText(keepsAbsent: bool, f: seq<Field>, g: seq<Field>)
    requires DistinctKeys(f) && DistinctKeys(g)
    requires forall e :: e in PrintFields(keepsAbsent, f) <==> e in PrintFields(keepsAbsent, g)
    ensures Print(keepsAbsent, Obj(f)) == Print(keepsAbsent, Obj(g))
  {
    EntriesDistinct(keepsAbsent, f);
    EntriesDistinct(keepsAbsent, g);
    SameContents(PrintFields(keepsAbsent, f), PrintFields(keepsAbsent, g));
    SortByKeyForgetsOrder(KeyOf, PrintFields(keepsAbsent, f), PrintFields(keepsAbsent, g));
  }

  lemma {:induction false} SamePrints(keepsAbsent: bool, a: Json, b: Json)
    requires Printable(a) && Printable(b) && Same(keepsAbsent, a, b)
    ensures Print(keepsAbsent, a) == Print(keepsAbsent, b)
    decreases a
  {
    if a.Arr? && b.Arr? {
      forall i | 0 <= i < |a.items| ensures Print(keepsAbsent, a.items[i]) == Print(keepsAbsent, b.items[i]) {
        SamePrints(keepsAbsent, a.items[i], b.items[i]);
      }
      assert PrintItems(keepsAbsent, a.items) == PrintItems(keepsAbsent, b.items);
    } else if a.Obj? && b.Obj? {
      var f, g := a.fields, b.fields;
      forall i, j | 0 <= i < |f| && 0 <= j < |g| && f[i].key == g[j].key && Present(keepsAbsent, f[i]) && Present(keepsAbsent, g[j])
        ensures Print(keepsAbsent, f[i].value) == Print(keepsAbsent, g[j].value)
      {
        SamePrints(keepsAbsent, f[i].value, g[j].value);
      }
      forall e ensures e in PrintFields(keepsAbsent, f) <==> e in PrintFields(keepsAbsent, g) {
        if e in PrintFields(keepsAbsent, f) {
          SameFieldsSameEntries(keepsAbsent, f, g, e);
        }
        if e in PrintFields(keepsAbsent, g) {
          SameFieldsSameEntries(keepsAbsent, g, f, e);
        }
      }
      SameEntriesSameText(keepsAbsent, f, g);
    }
  }

  // Two values print to the same canonical text exactly when they are equal up
  // to the order of object keys.
  lemma {:induction false} CanonicalTextDecides(keepsAbsent: bool, a: Json, b: Json)
    requires WellFormed(a) && WellFormed(b)
    ensures Print(keepsAbsent, a) == Print(keepsAbsent, b) <==> Same(keepsAbsent, a, b)
  {
    TextDecides(keepsAbsent, a, b);
    if Same(keepsAbsent, a, b) {
      SamePrints(keepsAbsent, a, b);
    }
  }
}

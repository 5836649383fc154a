// The canonical printer behind every fingerprint and digest: object keys are
// sorted, strings escaped, and the text can be read back in only one way.
module CanonicalJson {
  import opened Prelude
  import opened Texts

  // `Absent` is an undefined field value. A number is given by the decimal text
  // it prints as, which determines it.
  datatype Json =
    | Null
    | Bool(truth: bool)
    | Num(digits: Text)
    | Str(chars: Text)
    | Arr(items: seq<Json>)
    | Obj(fields: seq<Field>)
    | Absent

  datatype Field = Field(key: Text, value: Json)

  datatype Entry = Entry(key: Text, text: Text)

  const QUOTE: CodeUnit := 34
  const COMMA: CodeUnit := 44
  const COLON: CodeUnit := 58
  const BACKSLASH: CodeUnit := 92
  const OPEN_ARRAY: CodeUnit := 91
  const CLOSE_ARRAY: CodeUnit := 93
  const OPEN_OBJECT: CodeUnit := 123
  const CLOSE_OBJECT: CodeUnit := 125

  // ---------------------------------------------------------------- strings

  predicate High(c: CodeUnit) { 0xD800 <= c < 0xDC00 }

  predicate Low(c: CodeUnit) { 0xDC00 <= c < 0xE000 }

  function HexDigit(d: nat): CodeUnit
    requires d < 16
  {
    if d < 10 then 48 + d else 87 + d
  }

  function Hex4(c: CodeUnit): Text {
    [HexDigit(c / 4096), HexDigit(c / 256 % 16), HexDigit(c / 16 % 16), HexDigit(c % 16)]
  }

  // A unit that is not half of a surrogate pair.
  function EscapeUnit(c: CodeUnit): Text {
    if c == QUOTE || c == BACKSLASH then [BACKSLASH, c]
    else if c == 8 then [BACKSLASH, 98]
    else if c == 9 then [BACKSLASH, 116]
    else if c == 10 then [BACKSLASH, 110]
    else if c == 12 then [BACKSLASH, 102]
    else if c == 13 then [BACKSLASH, 114]
    else if c < 32 || High(c) || Low(c) then [BACKSLASH, 117] + Hex4(c)
    else [c]
  }

  predicate StartsWithPair(s: Text) {
    |s| >= 2 && High(s[0]) && Low(s[1])
  }

  function Escape(s: Text): Text {
    if s == [] then []
    else if StartsWithPair(s) then [s[0], s[1]] + Escape(s[2..])
    else EscapeUnit(s[0]) + Escape(s[1..])
  }

  function Quoted(s: Text): Text {
    [QUOTE] + Escape(s) + [QUOTE]
  }

  // ---------------------------------------------------------------- printing

  const KeyOf: Entry -> Text := (e: Entry) => e.key

  const ByEntryKey: (Entry, Entry) -> bool := ByKey(KeyOf)

  function Join(texts: seq<Text>): Text {
    if texts == [] then []
    else if |texts| == 1 then texts[0]
    else texts[0] + [COMMA] + Join(texts[1..])
  }

  function EntryText(e: Entry): Text {
    Quoted(e.key) + [COLON] + e.text
  }

  function EntryTexts(entries: seq<Entry>): (r: seq<Text>)
    ensures |r| == |entries|
    ensures forall i :: 0 <= i < |r| ==> r[i] == EntryText(entries[i])
  {
    if entries == [] then [] else [EntryText(entries[0])] + EntryTexts(entries[1..])
  }

  // `keepsAbsent` tells the printer of business-configuration, which prints an
  // undefined field, from the one of app-registry, which leaves it out.
  function Print(keepsAbsent: bool, v: Json): Text
    decreases v, 1
  {
    match v
    case Null => Lit("null")
    case Bool(truth) => if truth then Lit("true") else Lit("false")
    case Num(digits) => digits
    case Str(chars) => Quoted(chars)
    case Arr(items) => [OPEN_ARRAY] + Join(PrintItems(keepsAbsent, items)) + [CLOSE_ARRAY]
    case Obj(fields) =>
      [OPEN_OBJECT] + Join(EntryTexts(Sort(ByEntryKey, PrintFields(keepsAbsent, fields)))) + [CLOSE_OBJECT]
    case Absent => Lit("undefined")
  }

  function PrintItems(keepsAbsent: bool, items: seq<Json>): (r: seq<Text>)
    ensures |r| == |items|
    ensures forall i :: 0 <= i < |r| ==> r[i] == Print(keepsAbsent, items[i])
    decreases items, 0
  {
    if items == [] then [] else [Print(keepsAbsent, items[0])] + PrintItems(keepsAbsent, items[1..])
  }

  function PrintFields(keepsAbsent: bool, fields: seq<Field>): seq<Entry>
    decreases fields, 0
  {
    if fields == [] then []
    else
      var rest := PrintFields(keepsAbsent, fields[1..]);
      if fields[0].value.Absent? && !keepsAbsent then rest
      else [Entry(fields[0].key, Print(keepsAbsent, fields[0].value))] + rest
  }

  // ------------------------------------------------------ equality of values

  predicate Numeral(digits: Text) {
    && digits != []
    && (digits[0] == 45 || 48 <= digits[0] <= 57)
    && forall i :: 0 <= i < |digits| ==> digits[i] in {43, 45, 46, 101} || 48 <= digits[i] <= 57
  }

  // Values a caller can have: no undefined outside of fields, distinct keys.
  ghost predicate WellFormed(v: Json) {
    match v
    case Num(digits) => Numeral(digits)
    case Arr(items) => forall i :: 0 <= i < |items| ==> WellFormed(items[i])
    case Obj(fields) =>
      && (forall i, j :: 0 <= i < j < |fields| ==> fields[i].key != fields[j].key)
      && (forall i :: 0 <= i < |fields| ==> fields[i].value.Absent? || WellFormed(fields[i].value))
    case Absent => false
    case _ => true
  }

  predicate Present(keepsAbsent: bool, f: Field) {
    keepsAbsent || !f.value.Absent?
  }

  ghost predicate HasKey(keepsAbsent: bool, fields: seq<Field>, key: Text) {
    exists i :: 0 <= i < |fields| && Present(keepsAbsent, fields[i]) && fields[i].key == key
  }

  // Equal up to the order of object keys (and, unless kept, undefined fields).
  ghost predicate Same(keepsAbsent: bool, a: Json, b: Json)
    decreases a
  {
    match (a, b)
    case (Arr(xs), Arr(ys)) => |xs| == |ys| && forall i :: 0 <= i < |xs| ==> Same(keepsAbsent, xs[i], ys[i])
    case (Obj(f), Obj(g)) =>
      && (forall key :: HasKey(keepsAbsent, f, key) <==> HasKey(keepsAbsent, g, key))
      && (forall i, j | 0 <= i < |f| && 0 <= j < |g| && f[i].key == g[j].key && Present(keepsAbsent, f[i]) && Present(keepsAbsent, g[j]) ::
            Same(keepsAbsent, f[i].value, g[j].value))
    case _ => a == b
  }
}

/**
 * The length of a value as PostgreSQL prints `jsonb` text
 * (packages/ai/src/json-chars.ts): the compact print, plus one space for every
 * colon and comma that a flag-driven scan finds outside the strings.
 *
 * Strings are UTF-16 code units and escapes are those of section 7 of RFC 8259.
 */
module JsonChars {
  import opened Wrappers

  type CodeUnit = n: nat | n < 0x1_0000

  const QUOTE: CodeUnit := 0x22
  const BACKSLASH: CodeUnit := 0x5C
  const COLON: CodeUnit := 0x3A
  const COMMA: CodeUnit := 0x2C
  const SPACE: CodeUnit := 0x20

  /** A number as printed: digits, a sign, a point, an exponent. */
  type NumberText = s: seq<CodeUnit> | s != [] && forall u :: u in s ==> u in {0x2B, 0x2D, 0x2E, 0x65} || 0x30 <= u <= 0x39
    witness [0x30]

  /**
   * A value given to JSON.stringify.  `Unset` stands for undefined and functions,
   * which no text shows; `Big` for a bigint, on which printing throws.  A number
   * that is not finite prints as null and is one here.
   */
  datatype Json =
    | Null
    | Bool(truth: bool)
    | Number(digits: NumberText)
    | Text(units: seq<CodeUnit>)
    | Array(items: seq<Json>)
    | Object(fields: seq<Field>)
    | Unset
    | Big

  datatype Field = Field(key: seq<CodeUnit>, value: Json)

  predicate Serializable(v: Json) {
    match v
    case Array(items) => forall i :: 0 <= i < |items| ==> Serializable(items[i])
    case Object(fields) => forall i :: 0 <= i < |fields| ==> Serializable(fields[i].value)
    case Big => false
    case _ => true
  }

  // --------------------------------------------------------------- the printer

  function HexUnit(digit: nat): CodeUnit
    requires digit < 16
  {
    if digit < 10 then 0x30 + digit else 0x57 + digit
  }

  /** Six units: a backslash, the letter u and four hexadecimal digits. */
  function Hex(u: CodeUnit): (r: seq<CodeUnit>)
  {
    [BACKSLASH, 0x75, HexUnit(u / 4096), HexUnit(u / 256 % 16), HexUnit(u / 16 % 16), HexUnit(u % 16)]
  }

  predicate High(u: CodeUnit) { 0xD800 <= u < 0xDC00 }

  predicate Low(u: CodeUnit) { 0xDC00 <= u < 0xE000 }

  /** One unit that is not half of a surrogate pair. */
  function Escaped(u: CodeUnit): seq<CodeUnit> {
    if u == QUOTE || u == BACKSLASH then [BACKSLASH, u]
    else if u == 0x08 then [BACKSLASH, 0x62]
    else if u == 0x09 then [BACKSLASH, 0x74]
    else if u == 0x0A then [BACKSLASH, 0x6E]
    else if u == 0x0C then [BACKSLASH, 0x66]
    else if u == 0x0D then [BACKSLASH, 0x72]
    else if u < 0x20 || High(u) || Low(u) then Hex(u)
    else [u]
  }

  function Body(s: seq<CodeUnit>): seq<CodeUnit> {
    if s == [] then []
    else if |s| >= 2 && High(s[0]) && Low(s[1]) then [s[0], s[1]] + Body(s[2..])
    else Escaped(s[0]) + Body(s[1..])
  }

  function Quoted(s: seq<CodeUnit>): seq<CodeUnit> {
    [QUOTE] + Body(s) + [QUOTE]
  }

  const NULL_TEXT: seq<CodeUnit> := [0x6E, 0x75, 0x6C, 0x6C]

  /** A separator, with the space `jsonb` text puts after it. */
  function Separator(u: CodeUnit, spaced: bool): seq<CodeUnit> {
    if spaced then [u, SPACE] else [u]
  }

  function Print(v: Json, spaced: bool): seq<CodeUnit>
    decreases v
  {
    match v
    case Null => NULL_TEXT
    case Bool(truth) => if truth then [0x74, 0x72, 0x75, 0x65] else [0x66, 0x61, 0x6C, 0x73, 0x65]
    case Number(digits) => digits
    case Text(units) => Quoted(units)
    case Array(items) => [0x5B] + PrintItems(items, spaced) + [0x5D]
    case Object(fields) => [0x7B] + PrintFields(fields, spaced) + [0x7D]
    case Unset => NULL_TEXT
    case Big => []
  }

  function PrintItems(items: seq<Json>, spaced: bool): seq<CodeUnit>
    decreases items
  {
    if items == [] then []
    else
      var last := Print(items[|items| - 1], spaced);
      if |items| == 1 then last
      else PrintItems(items[..|items| - 1], spaced) + Separator(COMMA, spaced) + last
  }

  predicate Shown(fields: seq<Field>) {
    exists i :: 0 <= i < |fields| && !fields[i].value.Unset?
  }

  /** The members of an object; a member that is not set is not shown. */
  function PrintFields(fields: seq<Field>, spaced: bool): seq<CodeUnit>
    decreases fields
  {
    if fields == [] then []
    else
      var before, f := fields[..|fields| - 1], fields[|fields| - 1];
      var shown := PrintFields(before, spaced);
      if f.value.Unset? then shown
      else
        var member := Quoted(f.key) + Separator(COLON, spaced) + Print(f.value, spaced);
        if Shown(before) then shown + Separator(COMMA, spaced) + member else member
  }

  // ------------------------------------------------ separators and text length

  /** The structural colons and commas of a value, counted on the tree. */
  function Separators(v: Json): nat
    decreases v
  {
    match v
    case Array(items) => ItemSeparators(items)
    case Object(fields) => FieldSeparators(fields)
    case _ => 0
  }

  function ItemSeparators(items: seq<Json>): nat
    decreases items
  {
    if items == [] then 0
    else ItemSeparators(items[..|items| - 1]) + Separators(items[|items| - 1]) + if |items| == 1 then 0 else 1
  }

  function FieldSeparators(fields: seq<Field>): nat
    decreases fields
  {
    if fields == [] then 0
    else
      var before, f := fields[..|fields| - 1], fields[|fields| - 1];
      FieldSeparators(before) +
      if f.value.Unset? then 0 else 1 + Separators(f.value) + if Shown(before) then 1 else 0
  }

  lemma {:induction false} SpacesAreSeparators(v: Json)
    ensures |Print(v, true)| == |Print(v, false)| + Separators(v)
    decreases v
  {
    match v
    case Array(items) => SpacesAmongItems(items);
    case Object(fields) => SpacesAmongFields(fields);
    case _ =>
  }

  lemma {:induction false} SpacesAmongItems(items: seq<Json>)
    ensures |PrintItems(items, true)| == |PrintItems(items, false)| + ItemSeparators(items)
    decreases items
  {
    if items != [] {
      SpacesAmongItems(items[..|items| - 1]);
      SpacesAreSeparators(items[|items| - 1]);
    }
  }

  lemma {:induction false} SpacesAmongFields(fields: seq<Field>)
    ensures |PrintFields(fields, true)| == |PrintFields(fields, false)| + FieldSeparators(fields)
    decreases fields
  {
    if fields != [] {
      var before, f := fields[..|fields| - 1], fields[|fields| - 1];
      SpacesAmongFields(before);
      SpacesAreSeparators(f.value);
      if !Shown(before) {
        NothingShown(before);
      }
    }
  }

  // --------------------------------------------------------------- the scanner

  datatype Scan = Scan(extra: nat, inString: bool, escaped: bool)

  const START := Scan(0, false, false)

  function ScanUnit(s: Scan, u: CodeUnit): Scan {
    if s.inString then
      if s.escaped then s.(escaped := false)
      else if u == BACKSLASH then s.(escaped := true)
      else if u == QUOTE then s.(inString := false)
      else s
    else if u == QUOTE then s.(inString := true)
    else if u == COLON || u == COMMA then s.(extra := s.extra + 1)
    else s
  }

  function ScanAll(s: Scan, text: seq<CodeUnit>): Scan {
    if text == [] then s else ScanUnit(ScanAll(s, text[..|text| - 1]), text[|text| - 1])
  }

  lemma {:induction false} ScanJoins(s: Scan, a: seq<CodeUnit>, b: seq<CodeUnit>)
    ensures ScanAll(s, a + b) == ScanAll(ScanAll(s, a), b)
    decreases |b|
  {
    if b == [] {
      assert a + b == a;
    } else {
      assert (a + b)[..|a + b| - 1] == a + b[..|b| - 1];
      ScanJoins(s, a, b[..|b| - 1]);
    }
  }

  lemma ScanOne(s: Scan, u: CodeUnit)
    ensures ScanAll(s, [u]) == ScanUnit(s, u)
  {
    assert [u][..0] == [];
  }

  lemma ScanTwo(s: Scan, u: CodeUnit, w: CodeUnit)
    ensures ScanAll(s, [u, w]) == ScanUnit(ScanUnit(s, u), w)
  {
    assert [u, w] == [u] + [w];
    ScanJoins(s, [u], [w]);
    ScanOne(s, u);
    ScanOne(ScanUnit(s, u), w);
  }

  /** A unit that the scan, in this state, passes over unchanged. */
  predicate Plain(s: Scan, u: CodeUnit) {
    u != QUOTE && u != BACKSLASH && (s.inString || (u != COLON && u != COMMA))
  }

  lemma {:induction false} ScanPlain(s: Scan, text: seq<CodeUnit>)
    requires !s.escaped
    requires forall i :: 0 <= i < |text| ==> Plain(s, text[i])
    ensures ScanAll(s, text) == s
  {
    if text != [] {
      ScanPlain(s, text[..|text| - 1]);
    }
  }

  lemma ScanEscaped(n: nat, u: CodeUnit)
    ensures ScanAll(Scan(n, true, false), Escaped(u)) == Scan(n, true, false)
  {
    var s := Scan(n, true, false);
    var e := Escaped(u);
    if |e| == 1 {
      ScanOne(s, e[0]);
      assert e == [e[0]];
    } else if |e| == 2 {
      ScanTwo(s, e[0], e[1]);
      assert e == [e[0], e[1]];
    } else {
      assert e == [BACKSLASH, 0x75] + e[2..];
      ScanJoins(s, [BACKSLASH, 0x75], e[2..]);
      ScanTwo(s, BACKSLASH, 0x75);
      ScanPlain(s, e[2..]);
    }
  }

  lemma {:induction false} ScanBody(n: nat, s: seq<CodeUnit>)
    ensures ScanAll(Scan(n, true, false), Body(s)) == Scan(n, true, false)
  {
    var inside := Scan(n, true, false);
    if s != [] {
      if |s| >= 2 && High(s[0]) && Low(s[1]) {
        ScanPlain(inside, [s[0], s[1]]);
        ScanJoins(inside, [s[0], s[1]], Body(s[2..]));
        ScanBody(n, s[2..]);
      } else {
        ScanEscaped(n, s[0]);
        ScanJoins(inside, Escaped(s[0]), Body(s[1..]));
        ScanBody(n, s[1..]);
      }
    }
  }

  /** A string, whatever it holds, leaves the count where it was. */
  lemma ScanQuoted(n: nat, s: seq<CodeUnit>)
    ensures ScanAll(Scan(n, false, false), Quoted(s)) == Scan(n, false, false)
  {
    var out, inside := Scan(n, false, false), Scan(n, true, false);
    ScanOne(out, QUOTE);
    ScanJoins(out, [QUOTE], Body(s));
    ScanBody(n, s);
    ScanJoins(out, [QUOTE] + Body(s), [QUOTE]);
    ScanOne(inside, QUOTE);
  }

  /** The scan of a printed value ends outside every string, having counted its structure. */
  lemma {:induction false} ScanPrint(n: nat, v: Json)
    ensures ScanAll(Scan(n, false, false), Print(v, false)) == Scan(n + Separators(v), false, false)
    decreases v
  {
    var s := Scan(n, false, false);
    match v
    case Text(units) => ScanQuoted(n, units);
    case Array(items) =>
      ScanItems(n, items);
      ScanBracketed(n, n + ItemSeparators(items), 0x5B, PrintItems(items, false), 0x5D);
    case Object(fields) =>
      ScanFields(n, fields);
      ScanBracketed(n, n + FieldSeparators(fields), 0x7B, PrintFields(fields, false), 0x7D);
    case _ => ScanPlain(s, Print(v, false));
  }

  lemma ScanBracketed(n: nat, m: nat, open: CodeUnit, text: seq<CodeUnit>, close: CodeUnit)
    requires ScanAll(Scan(n, false, false), text) == Scan(m, false, false)
    requires open in {0x5B, 0x7B} && close in {0x5D, 0x7D}
    ensures ScanAll(Scan(n, false, false), [open] + text + [close]) == Scan(m, false, false)
  {
    var s := Scan(n, false, false);
    ScanOne(s, open);
    ScanJoins(s, [open], text);
    ScanJoins(s, [open] + text, [close]);
    ScanOne(Scan(m, false, false), close);
  }

  lemma {:induction false} ScanItems(n: nat, items: seq<Json>)
    ensures ScanAll(Scan(n, false, false), PrintItems(items, false)) == Scan(n + ItemSeparators(items), false, false)
    decreases items
  {
    if items != [] {
      var before, last := items[..|items| - 1], items[|items| - 1];
      if |items| == 1 {
        ScanPrint(n, last);
      } else {
        ScanItems(n, before);
        var m := n + ItemSeparators(before);
        ScanPrint(m + 1, last);
        ScanSeparated(n, m, m + 1 + Separators(last), PrintItems(before, false), COMMA, Print(last, false));
      }
    }
  }

  lemma ScanSeparated(n: nat, m: nat, k: nat, a: seq<CodeUnit>, u: CodeUnit, b: seq<CodeUnit>)
    requires u == COMMA || u == COLON
    requires ScanAll(Scan(n, false, false), a) == Scan(m, false, false)
    requires ScanAll(Scan(m + 1, false, false), b) == Scan(k, false, false)
    ensures ScanAll(Scan(n, false, false), a + Separator(u, false) + b) == Scan(k, false, false)
  {
    var s := Scan(n, false, false);
    ScanJoins(s, a, [u]);
    ScanOne(Scan(m, false, false), u);
    ScanJoins(s, a + [u], b);
  }

  lemma ScanMember(n: nat, f: Field)
    requires ScanAll(Scan(n + 1, false, false), Print(f.value, false)) == Scan(n + 1 + Separators(f.value), false, false)
    ensures ScanAll(Scan(n, false, false), Quoted(f.key) + Separator(COLON, false) + Print(f.value, false)) ==
            Scan(n + 1 + Separators(f.value), false, false)
  {
    ScanQuoted(n, f.key);
    ScanSeparated(n, n, n + 1 + Separators(f.value), Quoted(f.key), COLON, Print(f.value, false));
  }

  lemma {:induction false} ScanFields(n: nat, fields: seq<Field>)
    ensures ScanAll(Scan(n, false, false), PrintFields(fields, false)) == Scan(n + FieldSeparators(fields), false, false)
    decreases fields
  {
    hide Print, Quoted, Separator;
    if fields != [] {
      var before, f := fields[..|fields| - 1], fields[|fields| - 1];
      ScanFields(n, before);
      var m := n + FieldSeparators(before);
      if !f.value.Unset? {
        var at := if Shown(before) then m + 1 else n;
        ScanPrint(at + 1, f.value);
        ScanMember(at, f);
        if Shown(before) {
          ScanSeparated(n, m, m + 2 + Separators(f.value), PrintFields(before, false), COMMA,
                        Quoted(f.key) + Separator(COLON, false) + Print(f.value, false));
        } else {
          NothingShown(before);
        }
      }
    }
  }

  lemma {:induction false} NothingShown(fields: seq<Field>)
    requires !Shown(fields)
    ensures FieldSeparators(fields) == 0 && PrintFields(fields, true) == PrintFields(fields, false) == []
    decreases fields
  {
    if fields != [] {
      NothingShown(fields[..|fields| - 1]);
    }
  }

  // ---------------------------------------------------------------- the method

  /** Counts the colons and commas outside the strings of a JSON text. */
  method CountStructuralJsonSeparators(json: seq<CodeUnit>) returns (extra: nat)
    ensures extra == ScanAll(START, json).extra
  {
    extra := 0;
    var inString, escaped := false, false;
    for index := 0 to |json|
      invariant ScanAll(START, json[..index]) == Scan(extra, inString, escaped)
    {
      assert json[..index + 1][..index] == json[..index];
      var character := json[index];
      if inString {
        if escaped {
          escaped := false;
        } else if character == BACKSLASH {
          escaped := true;
        } else if character == QUOTE {
          inString := false;
        }
        continue;
      }
      if character == QUOTE {
        inString := true;
      } else if character == COLON || character == COMMA {
        extra := extra + 1;
      }
    }
    assert json[..|json|] == json;
  }

  /**
   * The length of the value as `jsonb` text; None stands for infinity, the answer
   * for a value that cannot be printed at all.
   */
  method PostgresJsonbTextChars(v: Json) returns (chars: Option<nat>)
    ensures chars.None? <==> v.Unset? || !Serializable(v)
    ensures chars.Some? ==> chars.value == |Print(v, true)|
  {
    if v.Unset? || !Serializable(v) {
      return None;
    }
    var compact := Print(v, false);
    var extra := CountStructuralJsonSeparators(compact);
    ScanPrint(0, v);
    SpacesAreSeparators(v);
    chars := Some(|compact| + extra);
  }
}

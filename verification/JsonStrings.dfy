/**
 * The strings of a JSON text (packages/ai/src/json-chars.ts measures them as
 * JSON.stringify prints them): what is printed reads back as it was, and how much
 * room each unit takes.
 *
 * Reading follows section 7 of RFC 8259.
 */
module JsonStrings {
  import opened Wrappers
  import opened JsonChars

  function HexValue(u: CodeUnit): (digit: Option<nat>)
    ensures digit.Some? ==> digit.value < 16
  {
    if 0x30 <= u <= 0x39 then Some(u - 0x30)
    else if 0x61 <= u <= 0x66 then Some(u - 0x57)
    else if 0x41 <= u <= 0x46 then Some(u - 0x37)
    else None
  }

  /** What four hexadecimal digits stand for. */
  function FourHex(t: seq<CodeUnit>): Option<CodeUnit>
    requires |t| == 4
  {
    var a, b, c, d := HexValue(t[0]), HexValue(t[1]), HexValue(t[2]), HexValue(t[3]);
    if a.None? || b.None? || c.None? || d.None? then None
    else Some(4096 * a.value + 256 * b.value + 16 * c.value + d.value)
  }

  /** The unit that a letter after a backslash stands for. */
  function Letter(u: CodeUnit): Option<CodeUnit> {
    if u == 0x22 || u == 0x5C || u == 0x2F then Some(u)
    else if u == 0x62 then Some(0x08)
    else if u == 0x66 then Some(0x0C)
    else if u == 0x6E then Some(0x0A)
    else if u == 0x72 then Some(0x0D)
    else if u == 0x74 then Some(0x09)
    else None
  }

  /** The first unit of a string's body and how much of the body it takes. */
  function ReadUnit(t: seq<CodeUnit>): (r: Option<(CodeUnit, nat)>)
    requires t != []
    ensures r.Some? ==> 0 < r.value.1 <= |t|
  {
    if t[0] == BACKSLASH then
      if |t| >= 6 && t[1] == 0x75 then
        var u := FourHex(t[2..6]);
        if u.Some? then Some((u.value, 6)) else None
      else if |t| >= 2 && Letter(t[1]).Some? then Some((Letter(t[1]).value, 2))
      else None
    else if t[0] < 0x20 || t[0] == QUOTE then None
    else Some((t[0], 1))
  }

  /** A string's body read; None when it is not one. */
  function Read(t: seq<CodeUnit>): Option<seq<CodeUnit>> {
    if t == [] then Some([])
    else
      var first := ReadUnit(t);
      if first.None? then None
      else
        var rest := Read(t[first.value.1..]);
        if rest.None? then None else Some([first.value.0] + rest.value)
  }

  lemma DigitReads(digit: nat)
    requires digit < 16
    ensures HexValue(HexUnit(digit)) == Some(digit)
  {
  }

  lemma FourDigits(u: CodeUnit)
    ensures u == 4096 * (u / 4096) + 256 * (u / 256 % 16) + 16 * (u / 16 % 16) + u % 16
  {
    assert u / 256 == u / 16 / 16;
    assert u / 4096 == u / 256 / 16;
  }

  lemma HexReads(u: CodeUnit)
    ensures FourHex(Hex(u)[2..6]) == Some(u)
  {
    hide HexValue, HexUnit;
    var t := Hex(u)[2..6];
    FourDigits(u);
    DigitReads(u / 4096);
    DigitReads(u / 256 % 16);
    DigitReads(u / 16 % 16);
    DigitReads(u % 16);
    assert t == [HexUnit(u / 4096), HexUnit(u / 256 % 16), HexUnit(u / 16 % 16), HexUnit(u % 16)];
  }

  lemma UnitReads(u: CodeUnit, rest: seq<CodeUnit>)
    ensures ReadUnit(Escaped(u) + rest) == Some((u, |Escaped(u)|))
  {
    var t := Escaped(u) + rest;
    if |Escaped(u)| == 6 {
      HexReads(u);
      assert t[2..6] == Hex(u)[2..6];
    }
  }

  /** A unit takes two places, six, or its own. */
  lemma UnitTakes(u: CodeUnit)
    ensures |Escaped(u)| ==
            if u in {0x22, 0x5C, 0x08, 0x09, 0x0A, 0x0C, 0x0D} then 2
            else if u < 0x20 || 0xD800 <= u < 0xE000 then 6 else 1
  {
  }

  lemma ReadStep(t: seq<CodeUnit>, u: CodeUnit, n: nat, rest: seq<CodeUnit>, s: seq<CodeUnit>)
    requires t != [] && 0 < n <= |t| && ReadUnit(t) == Some((u, n)) && t[n..] == rest && Read(rest) == Some(s)
    ensures Read(t) == Some([u] + s)
  {
  }

  /** A string's body reads back as the string. */
  lemma {:induction false} BodyReads(s: seq<CodeUnit>)
    ensures Read(Body(s)) == Some(s)
    decreases |s|
  {
    hide Read, ReadUnit, Escaped;
    if s == [] {
      NothingRead();
    } else if |s| >= 2 && High(s[0]) && Low(s[1]) {
      var rest := Body(s[2..]);
      BodyReads(s[2..]);
      PairReads(s[0], s[1], rest);
      ReadStep([s[1]] + rest, s[1], 1, rest, s[2..]);
      ReadStep([s[0], s[1]] + rest, s[0], 1, [s[1]] + rest, [s[1]] + s[2..]);
      assert s == [s[0]] + ([s[1]] + s[2..]);
    } else {
      var rest := Body(s[1..]);
      BodyReads(s[1..]);
      UnitReads(s[0], rest);
      EscapedIsSome(s[0]);
      ReadStep(Escaped(s[0]) + rest, s[0], |Escaped(s[0])|, rest, s[1..]);
      assert s == [s[0]] + s[1..];
    }
  }

  lemma NothingRead()
    ensures Read([]) == Some([]) && Body([]) == []
  {
  }

  lemma EscapedIsSome(u: CodeUnit)
    ensures Escaped(u) != []
  {
  }

  /** The halves of a surrogate pair stand as they are. */
  lemma PairReads(a: CodeUnit, b: CodeUnit, rest: seq<CodeUnit>)
    requires High(a) && Low(b)
    ensures ReadUnit([a, b] + rest) == Some((a, 1)) && ReadUnit([b] + rest) == Some((b, 1))
    ensures ([a, b] + rest)[1..] == [b] + rest && ([b] + rest)[1..] == rest
  {
  }

  /** Two strings print alike exactly when they are one string. */
  lemma QuotedTellsApart(s: seq<CodeUnit>, t: seq<CodeUnit>)
    ensures Quoted(s) == Quoted(t) <==> s == t
  {
    hide Body, Read;
    BodyReads(s);
    BodyReads(t);
    assert Quoted(s)[1..|Quoted(s)| - 1] == Body(s);
    assert Quoted(t)[1..|Quoted(t)| - 1] == Body(t);
  }
}

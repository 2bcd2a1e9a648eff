/**
 * The clipper as it runs (packages/ai/src/clip-tool-result.ts): one set of cut
 * paths filled by every pass, previews built entry by entry; and what the whole
 * call promises about its result.
 */
module ToolResultClipper {
  import opened JsonChars
  import opened JsonSize
  import opened ClipToolResult

  datatype Result = Whole(output: Json) | Envelope(preview: Json, omitted: nat, cuts: set<Path>)

  predicate IsTypedToolError(v: Json) {
    && v.Object?
    && Has(v.fields, Units("status")) && Get(v.fields, Units("status")) == Text(Units("error"))
    && Has(v.fields, Units("code")) && Get(v.fields, Units("code")).Text?
    && Has(v.fields, Units("message")) && Get(v.fields, Units("message")).Text?
  }

  /** The length that is budgeted: over budget when the value cannot be printed. */
  function JsonLength(v: Json): nat {
    if v.Unset? || !Serializable(v) then JSON_MAX + 1 else TextLength(v)
  }

  predicate Fits(v: Json) {
    JsonLength(v) <= JSON_MAX
  }

  // ---------------------------------------------------------- the three stages

  function SecondStage(v: Json): Json {
    if Fits(v) then v else Shrunk(v)
  }

  function ThirdStage(v: Json): Json {
    if Fits(v) then v else Compact(v)
  }

  function Preview(v: Json): Json {
    ThirdStage(SecondStage(Clipped(v)))
  }

  function Dropped(v: Json): nat {
    if !Fits(Clipped(v)) && Omitted(v) == 0 then 1 else Omitted(v)
  }

  function CutPaths(v: Json): set<Path> {
    var first := Clipped(v);
    var second := SecondStage(first);
    ClipCuts(v, ROOT) + (if Fits(first) then {} else ShrinkCuts(first, ROOT)) +
    (if Fits(second) then {} else CompactCuts(second, ROOT))
  }

  /** The preview is never longer than what came in. */
  lemma PreviewIsNoLonger(v: Json)
    ensures NoLonger(Preview(v), v)
  {
    StagesNeverLengthen(v);
    StagesNeverLengthen(Clipped(v));
    StagesNeverLengthen(SecondStage(Clipped(v)));
  }

  /** Nothing is dropped exactly when no array is over the cap and the value fits as it is. */
  lemma DroppedNothingIff(v: Json)
    requires OwnKeys(v)
    ensures Dropped(v) == 0 <==> WithinCap(v) && Fits(v)
  {
    NothingOmittedIff(v);
    if WithinCap(v) {
      ClippedKeepsWhatFits(v);
    }
  }

  class Clipper {
    var cuts: set<Path>

    constructor ()
      ensures cuts == {}
    {
      cuts := {};
    }

    method ClipUnknown(value: Json, path: Path) returns (preview: Json, omitted: nat)
      modifies this
      ensures preview == Clipped(value) && omitted == Omitted(value)
      ensures cuts == old(cuts) + ClipCuts(value, path)
      decreases value
    {
      hide Assign, ChildPath;
      if value.Array? {
        var kept := Min(|value.items|, ARRAY_MAX);
        var extra := |value.items| - kept;
        if extra > 0 {
          cuts := cuts + {path};
        }
        ghost var capped := cuts;
        omitted := extra;
        var entries: seq<Json> := [];
        for i := 0 to kept
          invariant entries == ClippedItems(value.items, i)
          invariant omitted == extra + OmittedItems(value.items, i)
          invariant cuts == capped + ItemsCuts(value.items, i, path)
        {
          var entry, more := ClipUnknown(value.items[i], path);
          entries := entries + [entry];
          omitted := omitted + more;
        }
        preview := Array(entries);
      } else if value.Object? {
        var fields: seq<Field> := [];
        omitted := 0;
        for i := 0 to |value.fields|
          invariant fields == ClippedFields(value.fields, i)
          invariant omitted == OmittedFields(value.fields, i)
          invariant cuts == old(cuts) + FieldsCuts(value.fields, i, path)
        {
          var f := value.fields[i];
          var entry, more := ClipUnknown(f.value, ChildPath(path, f.key));
          fields := Assign(fields, f.key, entry);
          omitted := omitted + more;
        }
        preview := Object(fields);
      } else {
        preview, omitted := value, 0;
      }
    }

    method ShrinkRow(value: Json, path: Path) returns (row: Json)
      modifies this
      ensures row == ShrunkRow(value)
      ensures cuts == old(cuts) + RowCuts(value, path)
    {
      if !value.Object? {
        return value;
      }
      var identity := Identity(value.fields);
      if identity == [] {
        return value;
      }
      for i := 0 to |value.fields|
        invariant cuts == old(cuts) + set f | f in value.fields[..i] && !In(f.key, identity) :: ChildPath(path, f.key)
      {
        assert value.fields[..i + 1] == value.fields[..i] + [value.fields[i]];
        if !In(value.fields[i].key, identity) {
          cuts := cuts + {ChildPath(path, value.fields[i].key)};
        }
      }
      assert value.fields[..|value.fields|] == value.fields;
      row := Object(identity);
    }

    method ShrinkRows(items: seq<Json>, path: Path) returns (rows: Json)
      modifies this
      ensures rows == ShrunkArray(items)
      ensures cuts == old(cuts) + ArrayCuts(items, path)
    {
      if |items| > SHRINK_ARRAY_MAX {
        cuts := cuts + {path};
      }
      ghost var capped := cuts;
      var kept: seq<Json> := [];
      for i := 0 to Min(|items|, SHRINK_ARRAY_MAX)
        invariant kept == ShrunkRows(items, i)
        invariant cuts == capped + RowsCuts(items, i, path)
      {
        var row := ShrinkRow(items[i], path);
        kept := kept + [row];
      }
      rows := Array(kept);
    }

    method ShrinkPreview(value: Json, path: Path) returns (shrunk: Json)
      modifies this
      ensures shrunk == Shrunk(value)
      ensures cuts == old(cuts) + ShrinkCuts(value, path)
    {
      hide Assign, ShrunkArray, ArrayCuts, ChildPath, Identity;
      if value.Array? {
        shrunk := ShrinkRows(value.items, path);
        return;
      }
      if !value.Object? {
        return value;
      }
      var fields: seq<Field> := [];
      for i := 0 to |value.fields|
        invariant fields == ShrunkFields(value.fields, i)
        invariant cuts == old(cuts) + ShrunkFieldsCuts(value.fields, i, path)
      {
        var f := value.fields[i];
        var entryPath := ChildPath(path, f.key);
        if f.key in IDENTITY_KEYS {
          fields := Assign(fields, f.key, f.value);
        } else if f.value.Array? {
          var rows := ShrinkRows(f.value.items, entryPath);
          fields := Assign(fields, f.key, rows);
        } else if f.value.Object? {
          var row := ShrinkRow(f.value, entryPath);
          fields := Assign(fields, f.key, row);
        } else if f.value.Number? || f.value.Bool? || f.value.Null? {
          fields := Assign(fields, f.key, f.value);
        } else {
          cuts := cuts + {entryPath};
        }
      }
      shrunk := Object(fields);
    }

    method CompactIdentity(value: Json, path: Path) returns (compact: Json)
      modifies this
      ensures compact == Compact(value)
      ensures cuts == old(cuts) + CompactCuts(value, path)
      decreases value
    {
      match value
      case Array(items) => compact := CompactRows(items, path);
      case Object(fields) => compact := CompactRecord(fields, path);
      case _ => compact := value;
    }

    method CompactRows(items: seq<Json>, path: Path) returns (compact: Json)
      modifies this
      ensures compact == Compact(Array(items))
      ensures cuts == old(cuts) + CompactCuts(Array(items), path)
      decreases items
    {
      if |items| > SHRINK_ARRAY_MAX {
        cuts := cuts + {path};
      }
      ghost var capped := cuts;
      var entries: seq<Json> := [];
      for i := 0 to Min(|items|, SHRINK_ARRAY_MAX)
        invariant entries == CompactItems(items, i)
        invariant cuts == capped + CompactItemsCuts(items, i, path)
      {
        var entry := CompactIdentity(items[i], path);
        entries := entries + [entry];
      }
      compact := Array(entries);
    }

    method CompactRecord(fields: seq<Field>, path: Path) returns (compact: Json)
      modifies this
      ensures compact == Compact(Object(fields))
      ensures cuts == old(cuts) + CompactCuts(Object(fields), path)
      decreases fields
    {
      hide Has, In, Identity, HasRecords, Assign, ChildPath;
      var picked := Identity(fields);
      for i := 0 to |fields|
        invariant picked == CompactFields(fields, i)
        invariant cuts == old(cuts) + CompactFieldsCuts(fields, i, path)
      {
        var f := fields[i];
        if In(f.key, picked) {
          continue;
        }
        if HasRecords(f.value) {
          var entry := CompactIdentity(f.value, ChildPath(path, f.key));
          picked := Assign(picked, f.key, entry);
          continue;
        }
        cuts := cuts + {ChildPath(path, f.key)};
      }
      compact := Object(picked);
    }
  }

  method Measure(v: Json) returns (chars: nat)
    ensures chars == JsonLength(v)
  {
    var text := PostgresJsonbTextChars(v);
    chars := if text.Some? then text.value else JSON_MAX + 1;
  }

  /** Whole for a typed error, and for a value with no array over the cap that fits. */
  function Returned(output: Json): Result {
    if IsTypedToolError(output) || (WithinCap(output) && Fits(output)) then Whole(output)
    else Envelope(Preview(output), Dropped(output), CutPaths(output))
  }

  /**
   * The whole call.  The output comes back unwrapped exactly when it is a typed
   * error, or has no array over the cap and fits; otherwise the envelope says that
   * at least one thing is gone.
   */
  method ClipStaffAssistantToolResult(output: Json) returns (r: Result)
    requires OwnKeys(output)
    ensures r == Returned(output)
    ensures r.Envelope? ==> r.omitted > 0
  {
    hide Clipped, Shrunk, Compact, Omitted, ClipCuts, ShrinkCuts, CompactCuts, WithinCap, OwnKeys, IsTypedToolError, JsonLength;
    DroppedNothingIff(output);
    if IsTypedToolError(output) {
      return Whole(output);
    }
    var clipper := new Clipper();
    var preview, omitted := clipper.ClipUnknown(output, ROOT);
    var length := Measure(preview);
    if length > JSON_MAX {
      preview := clipper.ShrinkPreview(preview, ROOT);
      omitted := if omitted > 1 then omitted else 1;
    }
    length := Measure(preview);
    if length > JSON_MAX {
      preview := clipper.CompactIdentity(preview, ROOT);
      omitted := if omitted > 1 then omitted else 1;
    }
    if omitted == 0 {
      return Whole(output);
    }
    assert clipper.cuts == CutPaths(output);
    r := Envelope(preview, omitted, clipper.cuts);
  }

  // ------------------------------------------------------ where clipping falls short

  /** A string over the budget is returned whole, in an envelope that names no cut. */
  lemma OverlongTextIsNotCut(units: seq<CodeUnit>)
    requires TextLength(Text(units)) > JSON_MAX
    ensures Preview(Text(units)) == Text(units) && Dropped(Text(units)) == 1 && CutPaths(Text(units)) == {}
  {
  }

  function PathTexts(paths: seq<Path>): Json {
    Array(seq(|paths|, i requires 0 <= i < |paths| => Text(paths[i])))
  }

  /** The envelope as it is stored, with the printed count and the paths in their order. */
  function Stored(preview: Json, digits: NumberText, paths: seq<Path>): Json {
    Object([Field(Units("status"), Text(Units("clipped"))), Field(Units("preview"), preview),
            Field(Units("omitted"), Number(digits)), Field(Units("cutPaths"), PathTexts(paths))])
  }

  predicate Unescaped(u: CodeUnit) {
    0x20 <= u < 128 && u != QUOTE && u != BACKSLASH
  }

  lemma {:induction false} UnescapedBody(s: seq<CodeUnit>)
    requires forall i :: 0 <= i < |s| ==> Unescaped(s[i])
    ensures |Quoted(s)| == |s| + 2
  {
    if s != [] {
      UnescapedBody(s[1..]);
      assert |Body(s)| == 1 + |Body(s[1..])|;
    }
  }

  lemma FourFields(a: Field, b: Field, c: Field, d: Field)
    ensures Cost([a, b, c, d]) == FieldCost(a) + FieldCost(b) + FieldCost(c) + FieldCost(d)
  {
    calc {
      Cost([a, b, c, d]);
      { assert [a, b, c, d][..3] == [a, b, c]; }
      Cost([a, b, c]) + FieldCost(d);
      { assert [a, b, c][..2] == [a, b]; }
      Cost([a, b]) + FieldCost(c) + FieldCost(d);
      { assert [a, b][..1] == [a]; }
      Cost([a]) + FieldCost(b) + FieldCost(c) + FieldCost(d);
      { assert [a][..0] == []; }
      FieldCost(a) + FieldCost(b) + FieldCost(c) + FieldCost(d);
    }
  }

  lemma NameLength(name: string)
    requires forall i :: 0 <= i < |name| ==> 'A' <= name[i] <= 'Z' || 'a' <= name[i] <= 'z'
    ensures |Quoted(Units(name))| == |name| + 2
  {
    UnescapedBody(Units(name));
  }

  lemma NamesLength()
    ensures |Quoted(Units("status"))| == 8 && |Quoted(Units("clipped"))| == 9 && |Quoted(Units("preview"))| == 9
    ensures |Quoted(Units("omitted"))| == 9 && |Quoted(Units("cutPaths"))| == 10
  {
    NameLength("status");
    NameLength("clipped");
    NameLength("preview");
    NameLength("omitted");
    NameLength("cutPaths");
  }

  /** The envelope adds 61 units, the count and the list of paths to a preview that is set. */
  lemma StoredLength(preview: Json, digits: NumberText, paths: seq<Path>)
    ensures TextLength(Stored(preview, digits, paths)) ==
            48 + |digits| + TextLength(PathTexts(paths)) + if preview.Unset? then 0 else TextLength(preview) + 13
    ensures TextLength(PathTexts(paths)) >= 2
  {
    var fields := Stored(preview, digits, paths).fields;
    NamesLength();
    ObjectLength(fields);
    FourFields(fields[0], fields[1], fields[2], fields[3]);
    ArrayLength(PathTexts(paths).items);
  }

  // The column that stores a result checks that its text is no longer than the
  // budget; the code measures the preview, not the envelope around it.

  function Nulls(n: nat): seq<Json> {
    seq(n, i => Null)
  }

  lemma {:induction false} NullsCost(v: Json, n: nat)
    ensures ItemsCost([v] + Nulls(n)) == TextLength(v) + 2 + 6 * n
    decreases n
  {
    if n == 0 {
      assert [v] + Nulls(0) == [v] && [v][..0] == [];
    } else {
      assert ([v] + Nulls(n))[..n] == [v] + Nulls(n - 1);
      NullsCost(v, n - 1);
    }
  }

  /** Fifty-one entries: one string, then nulls. */
  function LongPage(units: seq<CodeUnit>): Json {
    Array([Text(units)] + Nulls(50))
  }

  lemma LongPageIsClipped(units: seq<CodeUnit>)
    ensures Clipped(LongPage(units)) == Array([Text(units)] + Nulls(49))
    ensures TextLength(Clipped(LongPage(units))) == |Quoted(units)| + 296
    ensures Serializable(Clipped(LongPage(units)))
  {
    var items := LongPage(units).items;
    ArrayKeepsAPrefix(items);
    forall i | 0 <= i < 50 ensures Clipped(items[i]) == ([Text(units)] + Nulls(49))[i] {
    }
    assert Clipped(LongPage(units)).items == [Text(units)] + Nulls(49);
    NullsCost(Text(units), 49);
    ArrayLength([Text(units)] + Nulls(49));
  }

  /** A page whose preview passes the budget and whose envelope, however it lists its cuts, does not. */
  lemma EnvelopeCanOutgrowTheColumn(units: seq<CodeUnit>, digits: NumberText, paths: seq<Path>)
    requires 21641 <= |Quoted(units)| <= 21704
    ensures var page := LongPage(units);
            && Fits(Clipped(page)) && Preview(page) == Clipped(page) && Dropped(page) > 0
            && TextLength(Stored(Preview(page), digits, paths)) > JSON_MAX
  {
    var page := LongPage(units);
    LongPageIsClipped(units);
    StoredLength(Preview(page), digits, paths);
    NothingOmittedIff(page);
    assert !WithinCap(page);
  }

  /** A result as it is stored. */
  function StoredAs(r: Result, digits: NumberText, paths: seq<Path>): Json {
    match r
    case Whole(output) => output
    case Envelope(preview, _, _) => Stored(preview, digits, paths)
  }

  /** What the budget leaves for a preview beside the count and the paths. */
  function Room(digits: NumberText, paths: seq<Path>): int {
    JSON_MAX - 61 - |digits| - TextLength(PathTexts(paths))
  }

  predicate Roomy(preview: Json, digits: NumberText, paths: seq<Path>) {
    if preview.Unset? then 0 <= Room(digits, paths) + 13 else JsonLength(preview) <= Room(digits, paths)
  }

  lemma StoredPrints(preview: Json, digits: NumberText, paths: seq<Path>)
    ensures Stored(preview, digits, paths).Object?
    ensures Serializable(Stored(preview, digits, paths)) <==> Serializable(preview)
  {
    var fields := Stored(preview, digits, paths).fields;
    assert forall i :: 0 <= i < |paths| ==> Serializable(PathTexts(paths).items[i]);
    assert fields[1].value == preview && Serializable(fields[0].value) && Serializable(fields[2].value)
           && Serializable(fields[3].value);
  }

  lemma StoredFits(preview: Json, digits: NumberText, paths: seq<Path>)
    ensures Fits(Stored(preview, digits, paths)) <==> Roomy(preview, digits, paths)
  {
    hide TextLength, PathTexts, Stored;
    StoredLength(preview, digits, paths);
    StoredPrints(preview, digits, paths);
  }

  /**
   * When what the call returns fits the column.  A typed error is never measured,
   * so it must fit by itself; a value that comes back whole always does; a preview
   * is measured bare, so the stage at which clipping stopped must leave room for
   * the envelope.
   */
  lemma StoredFitsIff(output: Json, digits: NumberText, paths: seq<Path>)
    requires OwnKeys(output)
    ensures var stored := Fits(StoredAs(Returned(output), digits, paths));
            var capped := Clipped(output);
            if IsTypedToolError(output) then stored <==> Fits(output)
            else if WithinCap(output) && Fits(output) then stored
            else if Fits(capped) then stored <==> Roomy(capped, digits, paths)
            else if Fits(Shrunk(capped)) then stored <==> Roomy(Shrunk(capped), digits, paths)
            else stored <==> Roomy(Compact(Shrunk(capped)), digits, paths)
  {
    hide Clipped, Shrunk, Compact, WithinCap, OwnKeys, IsTypedToolError, Fits, Roomy, Stored, CutPaths, Dropped;
    StoredFits(Preview(output), digits, paths);
  }

  /** Whatever is cut, an output that leaves room for the envelope before the call is stored. */
  lemma SmallOutputIsStored(output: Json, digits: NumberText, paths: seq<Path>)
    requires JsonLength(output) <= Room(digits, paths)
    ensures Fits(StoredAs(Returned(output), digits, paths))
  {
    hide Clipped, Shrunk, Compact, WithinCap, IsTypedToolError, CutPaths, Dropped, Preview;
    StoredLength(Preview(output), digits, paths);
    PreviewIsNoLonger(output);
    StoredFits(Preview(output), digits, paths);
  }

  function ErrorWith(message: seq<CodeUnit>): Json {
    Object([Field(Units("status"), Text(Units("error"))), Field(Units("code"), Text(Units("unavailable"))),
            Field(Units("message"), Text(message))])
  }

  /** A typed error with a long message comes back whole, and over the budget. */
  lemma TypedErrorCanOutgrowTheColumn(message: seq<CodeUnit>)
    requires |Quoted(message)| > JSON_MAX
    ensures Returned(ErrorWith(message)) == Whole(ErrorWith(message)) && !Fits(ErrorWith(message))
  {
    hide Clipped, Shrunk, Compact, WithinCap, CutPaths, Dropped, Preview, Quoted;
    var fields := ErrorWith(message).fields;
    assert |Units("status")| == 6 && |Units("code")| == 4 && |Units("message")| == 7;
    assert Distinct(fields);
    GetIs(fields, 0);
    GetIs(fields, 1);
    GetIs(fields, 2);
    ObjectLength(fields);
    assert Cost(fields) >= FieldCost(fields[2]);
  }
}

/**
 * What a clipped result says is gone (packages/ai/src/clip-tool-result.ts): how many
 * entries were omitted, and the paths that were cut, by which a reader of the result
 * tells a whole list from a clipped one.
 */
module ClipLosses {
  import opened JsonChars
  import opened JsonSize
  import opened ClipToolResult
  import opened ToolResultClipper
  import opened PreviewPrunes

  // ------------------------------------------------------- what the last stages keep

  /** What is left of a record's row: its identity fields, when it has any. */
  ghost predicate RowOf(a: Json, v: Json) {
    if v.Object? && exists key :: key in IDENTITY_KEYS && Has(v.fields, key) then
      && a.Object? && Distinct(a.fields)
      && forall key ::
           && (Has(a.fields, key) <==> key in IDENTITY_KEYS && Has(v.fields, key))
           && (Has(a.fields, key) ==> Get(a.fields, key) == Get(v.fields, key))
    else a == v
  }

  lemma RowIs(v: Json)
    ensures RowOf(ShrunkRow(v), v)
  {
    if v.Object? {
      forall key
        ensures Has(Identity(v.fields), key) <==> key in IDENTITY_KEYS && Has(v.fields, key)
        ensures Has(Identity(v.fields), key) ==> Get(Identity(v.fields), key) == Get(v.fields, key)
        ensures Distinct(Identity(v.fields))
      {
        IdentityHas(v.fields, key);
      }
      if Identity(v.fields) != [] {
        assert Has(Identity(v.fields), Identity(v.fields)[0].key);
      }
    }
  }

  /** Lists and records, numbers, truths and nulls stay; text does not, nor what is not set. */
  predicate Stays(v: Json) {
    v.Array? || v.Object? || v.Number? || v.Bool? || v.Null?
  }

  lemma {:induction false} ShrunkFieldsIff(fields: seq<Field>, k: nat, key: seq<CodeUnit>)
    requires Distinct(fields) && k <= |fields|
    ensures Distinct(ShrunkFields(fields, k))
    ensures Has(ShrunkFields(fields, k), key) <==> exists i :: 0 <= i < k && fields[i].key == key && Kept(fields[i])
    ensures Has(ShrunkFields(fields, k), key) ==>
              Has(fields, key) && Get(ShrunkFields(fields, k), key) == KeptAs(fields[IndexOf(fields, key)])
    decreases k
  {
    hide Kept, KeptAs, Assign;
    if k > 0 {
      ShrunkFieldsIff(fields, k - 1, key);
      var f := fields[k - 1];
      if Kept(f) {
        AssignKeeps(ShrunkFields(fields, k - 1), f.key, KeptAs(f), key);
        GetIs(fields, k - 1);
      }
    }
  }

  /**
   * The second stage keeps of a record its identity fields as they are, and every
   * other field but text: of a list the first three rows, of a record its row.
   */
  lemma SecondStageKeeps(fields: seq<Field>, key: seq<CodeUnit>)
    requires Distinct(fields) && Has(fields, key)
    ensures Shrunk(Object(fields)).Object? && Distinct(Shrunk(Object(fields)).fields)
    ensures var left, v := Shrunk(Object(fields)).fields, Get(fields, key);
            && (Has(left, key) <==> key in IDENTITY_KEYS || Stays(v))
            && (Has(left, key) ==>
                  var w := Get(left, key);
                  if key in IDENTITY_KEYS || (!v.Array? && !v.Object?) then w == v
                  else if v.Object? then RowOf(w, v)
                  else w.Array? && |w.items| == Min(|v.items|, 3) && forall i :: 0 <= i < |w.items| ==> RowOf(w.items[i], v.items[i]))
  {
    hide RowOf, Identity;
    ShrunkFieldsIff(fields, |fields|, key);
    var at := IndexOf(fields, key);
    var v := fields[at].value;
    if v.Object? {
      RowIs(v);
    } else if v.Array? {
      ShrunkKeepsThreeRows(v.items);
      forall i | 0 <= i < |v.items| ensures RowOf(ShrunkRow(v.items[i]), v.items[i]) {
        RowIs(v.items[i]);
      }
    }
    if Has(ShrunkFields(fields, |fields|), key) {
      var i :| 0 <= i < |fields| && fields[i].key == key && Kept(fields[i]);
      assert i == at;
    }
  }

  lemma {:induction false} CompactFieldsIff(fields: seq<Field>, k: nat, key: seq<CodeUnit>)
    requires Distinct(fields) && k <= |fields|
    ensures Distinct(CompactFields(fields, k))
    ensures Has(CompactFields(fields, k), key) <==>
            (key in IDENTITY_KEYS && Has(fields, key)) ||
            (key !in PROTOTYPE_NAMES && exists i :: 0 <= i < k && fields[i].key == key && HasRecords(fields[i].value))
    ensures Has(CompactFields(fields, k), key) ==>
              && Has(fields, key)
              && Get(CompactFields(fields, k), key) ==
                 if key in IDENTITY_KEYS then Get(fields, key) else Compact(Get(fields, key))
    decreases k
  {
    hide HasRecords, Compact, Identity, Assign, In, Has, Distinct;
    IdentityHas(fields, key);
    if k > 0 {
      CompactFieldsIff(fields, k - 1, key);
      var before, f := CompactFields(fields, k - 1), fields[k - 1];
      GetIs(fields, k - 1);
      AssignKeeps(before, f.key, Compact(f.value), key);
      IdentityIsKept(fields, k - 1);
    }
  }

  /** A field is found among those kept before it exactly when it is an identity field. */
  lemma IdentityIsKept(fields: seq<Field>, k: nat)
    requires Distinct(fields) && k < |fields|
    ensures In(fields[k].key, CompactFields(fields, k)) <==>
            fields[k].key in IDENTITY_KEYS || fields[k].key in PROTOTYPE_NAMES
  {
    hide HasRecords, Compact, Identity;
    assert Has(fields, fields[k].key);
    KeptBefore(fields, k, fields[k].key);
  }

  lemma {:induction false} KeptBefore(fields: seq<Field>, k: nat, key: seq<CodeUnit>)
    requires Distinct(fields) && k <= |fields| && forall i :: 0 <= i < k ==> fields[i].key != key
    ensures Distinct(CompactFields(fields, k))
    ensures Has(CompactFields(fields, k), key) <==> key in IDENTITY_KEYS && Has(fields, key)
    decreases k
  {
    hide HasRecords, Compact, Identity, Assign, In;
    IdentityHas(fields, key);
    if k > 0 {
      KeptBefore(fields, k - 1, key);
      AssignKeeps(CompactFields(fields, k - 1), fields[k - 1].key, Compact(fields[k - 1].value), key);
    }
  }

  /** The third stage keeps of a record its identity fields as they are, and the lists that hold a record. */
  lemma ThirdStageKeeps(fields: seq<Field>, key: seq<CodeUnit>)
    requires Distinct(fields) && Has(fields, key)
    ensures Compact(Object(fields)).Object? && Distinct(Compact(Object(fields)).fields)
    ensures var left, v := Compact(Object(fields)).fields, Get(fields, key);
            && (Has(left, key) <==>
                  || key in IDENTITY_KEYS
                  || (key !in PROTOTYPE_NAMES && v.Array? && exists i :: 0 <= i < |v.items| && v.items[i].Object?))
            && (Has(left, key) ==> Get(left, key) == if key in IDENTITY_KEYS then v else Compact(v))
  {
    CompactFieldsIff(fields, |fields|, key);
  }

  /** Both keep the first three entries of a list: one as rows, the other compacted in turn. */
  lemma ListsKeepThree(items: seq<Json>)
    ensures Shrunk(Array(items)).Array? && Compact(Array(items)).Array?
    ensures var rows, left := Shrunk(Array(items)).items, Compact(Array(items)).items;
            && |rows| == |left| == Min(|items|, 3)
            && forall i :: 0 <= i < |rows| ==> RowOf(rows[i], items[i]) && left[i] == Compact(items[i])
  {
    hide RowOf, Compact;
    ShrunkKeepsThreeRows(items);
    CompactListIs(items);
    forall i | 0 <= i < Min(|items|, 3)
      ensures RowOf(Shrunk(Array(items)).items[i], items[i]) && Compact(Array(items)).items[i] == Compact(items[i])
    {
      RowIs(items[i]);
      CompactItemAt(items, Min(|items|, 3), i);
    }
  }

  lemma CompactListIs(items: seq<Json>)
    ensures Compact(Array(items)) == Array(CompactItems(items, Min(|items|, 3)))
  {
  }

  // ------------------------------------------------------------- every loss is named

  /**
   * Nothing is missing without its path: a list that is shorter is cut at its path, a
   * field that is not there at its own, unless it is called like a property that every
   * object has.
   */
  ghost predicate Names(a: Json, v: Json, cuts: set<Path>, path: Path)
    decreases v
  {
    match v
    case Array(items) =>
      && a.Array? && |a.items| <= |items| && (|a.items| < |items| ==> path in cuts)
      && forall i :: 0 <= i < |a.items| ==> Names(a.items[i], items[i], cuts, path)
    case Object(fields) =>
      && a.Object? && Distinct(a.fields)
      && (forall key :: Has(fields, key) && !Has(a.fields, key) ==> key in PROTOTYPE_NAMES || ChildPath(path, key) in cuts)
      && forall i :: 0 <= i < |a.fields| ==> NamesField(a.fields[i], fields, cuts, path)
    case _ => a == v
  }

  ghost predicate NamesField(f: Field, fields: seq<Field>, cuts: set<Path>, path: Path)
    decreases fields
  {
    Has(fields, f.key) && Names(f.value, Get(fields, f.key), cuts, ChildPath(path, f.key))
  }

  lemma {:induction false} NamesItself(v: Json, cuts: set<Path>, path: Path)
    requires OwnKeys(v)
    ensures Names(v, v, cuts, path)
    decreases v
  {
    match v
    case Array(items) =>
      forall i | 0 <= i < |items| ensures Names(items[i], items[i], cuts, path) {
        NamesItself(items[i], cuts, path);
      }
    case Object(fields) =>
      forall i | 0 <= i < |fields| ensures NamesField(fields[i], fields, cuts, path) {
        GetIs(fields, i);
        NamesItself(fields[i].value, cuts, ChildPath(path, fields[i].key));
      }
    case _ =>
  }

  /** One stage over another. */
  lemma {:induction false} NamesOfNamed(a: Json, b: Json, v: Json, cuts: set<Path>, path: Path)
    requires Names(a, b, cuts, path) && Names(b, v, cuts, path)
    ensures Names(a, v, cuts, path)
    decreases v
  {
    hide ChildPath;
    match v
    case Array(items) =>
      forall i | 0 <= i < |a.items| ensures Names(a.items[i], items[i], cuts, path) {
        NamesOfNamed(a.items[i], b.items[i], items[i], cuts, path);
      }
    case Object(fields) =>
      forall i | 0 <= i < |a.fields| ensures NamesField(a.fields[i], fields, cuts, path) {
        var f := a.fields[i];
        assert NamesField(f, b.fields, cuts, path);
        var g := b.fields[IndexOf(b.fields, f.key)];
        assert NamesField(g, fields, cuts, path);
        NamesOfNamed(f.value, g.value, Get(fields, f.key), cuts, ChildPath(path, f.key));
      }
    case _ =>
  }

  lemma {:induction false} ItemCutsAreIn(items: seq<Json>, k: nat, path: Path, i: nat)
    requires i < k <= |items|
    ensures ClipCuts(items[i], path) <= ItemsCuts(items, k, path)
    ensures RowCuts(items[i], path) <= RowsCuts(items, k, path)
    ensures CompactCuts(items[i], path) <= CompactItemsCuts(items, k, path)
    decreases k
  {
    hide ClipCuts, RowCuts, CompactCuts;
    if i < k - 1 {
      ItemCutsAreIn(items, k - 1, path, i);
    }
  }

  lemma {:induction false} FieldCutsAreIn(fields: seq<Field>, k: nat, path: Path, i: nat)
    requires i < k <= |fields|
    ensures ClipCuts(fields[i].value, ChildPath(path, fields[i].key)) <= FieldsCuts(fields, k, path)
    ensures KeptCuts(fields[i], path) <= ShrunkFieldsCuts(fields, k, path)
    ensures FieldCompactCuts(fields, i, path) <= CompactFieldsCuts(fields, k, path)
    decreases k
  {
    hide ClipCuts, KeptCuts, CompactCuts, ChildPath, In, HasRecords, CompactFields;
    if i < k - 1 {
      FieldCutsAreIn(fields, k - 1, path, i);
    }
  }

  /** What the third stage cuts at one field. */
  function FieldCompactCuts(fields: seq<Field>, i: nat, path: Path): set<Path>
    requires i < |fields|
  {
    var f, entryPath := fields[i], ChildPath(path, fields[i].key);
    if In(f.key, CompactFields(fields, i)) then {} else if HasRecords(f.value) then CompactCuts(f.value, entryPath) else {entryPath}
  }

  lemma {:induction false} ClippedNames(v: Json, cuts: set<Path>, path: Path)
    requires OwnKeys(v) && ClipCuts(v, path) <= cuts
    ensures Names(Clipped(v), v, cuts, path)
    decreases v
  {
    hide ChildPath, ItemsCuts, FieldsCuts, ClippedItems, ClippedFields;
    match v
    case Array(items) =>
      ArrayKeepsAPrefix(items);
      var k := Min(|items|, ARRAY_MAX);
      forall i | 0 <= i < k ensures Names(Clipped(items[i]), items[i], cuts, path) {
        ItemCutsAreIn(items, k, path, i);
        ClippedNames(items[i], cuts, path);
      }
    case Object(fields) =>
      ObjectKeepsItsFields(fields);
      var kept := Clipped(v).fields;
      forall i | 0 <= i < |fields| ensures NamesField(kept[i], fields, cuts, path) {
        GetIs(fields, i);
        FieldCutsAreIn(fields, |fields|, path, i);
        ClippedNames(fields[i].value, cuts, ChildPath(path, fields[i].key));
      }
      forall key | Has(fields, key) ensures Has(kept, key) {
        assert kept[IndexOf(fields, key)].key == key;
      }
    case _ =>
  }

  lemma RowNames(v: Json, cuts: set<Path>, path: Path)
    requires OwnKeys(v) && RowCuts(v, path) <= cuts
    ensures Names(ShrunkRow(v), v, cuts, path)
  {
    hide ChildPath, Identity;
    if v.Object? && Identity(v.fields) != [] {
      var left := Identity(v.fields);
      forall i | 0 <= i < |left| ensures NamesField(left[i], v.fields, cuts, path) && Distinct(left) {
        IdentityHas(v.fields, left[i].key);
        GetIs(left, i);
        var f := v.fields[IndexOf(v.fields, left[i].key)];
        NamesItself(f.value, cuts, ChildPath(path, f.key));
      }
      forall key | Has(v.fields, key) && !Has(left, key) ensures key in PROTOTYPE_NAMES || ChildPath(path, key) in cuts {
        var f := v.fields[IndexOf(v.fields, key)];
        assert f in v.fields;
      }
    } else {
      NamesItself(v, cuts, path);
    }
  }

  lemma ArrayNames(items: seq<Json>, cuts: set<Path>, path: Path)
    requires OwnKeys(Array(items)) && ArrayCuts(items, path) <= cuts
    ensures Names(ShrunkArray(items), Array(items), cuts, path)
  {
    hide RowCuts, ShrunkRow;
    ShrunkKeepsThreeRows(items);
    var k := Min(|items|, SHRINK_ARRAY_MAX);
    forall i | 0 <= i < k ensures Names(ShrunkRow(items[i]), items[i], cuts, path) {
      ItemCutsAreIn(items, k, path, i);
      RowNames(items[i], cuts, path);
    }
  }

  lemma KeptNames(f: Field, cuts: set<Path>, path: Path)
    requires OwnKeys(f.value) && KeptCuts(f, path) <= cuts
    ensures Kept(f) ==> Names(KeptAs(f), f.value, cuts, ChildPath(path, f.key))
    ensures !Kept(f) ==> ChildPath(path, f.key) in cuts
  {
    hide ChildPath, RowCuts, ArrayCuts, ShrunkArray, Names;
    var entryPath := ChildPath(path, f.key);
    if f.key in IDENTITY_KEYS {
      NamesItself(f.value, cuts, entryPath);
    } else if f.value.Array? {
      ArrayNames(f.value.items, cuts, entryPath);
    } else if f.value.Object? {
      RowNames(f.value, cuts, entryPath);
    } else {
      NamesItself(f.value, cuts, entryPath);
    }
  }

  lemma ShrunkNames(v: Json, cuts: set<Path>, path: Path)
    requires OwnKeys(v) && ShrinkCuts(v, path) <= cuts
    ensures Names(Shrunk(v), v, cuts, path)
  {
    hide ChildPath, Kept, KeptAs, KeptCuts, ShrunkArray;
    if v.Array? {
      ArrayNames(v.items, cuts, path);
    } else if v.Object? {
      var fields, left := v.fields, ShrunkFields(v.fields, |v.fields|);
      forall i | 0 <= i < |fields|
        ensures Kept(fields[i]) ==> Names(KeptAs(fields[i]), fields[i].value, cuts, ChildPath(path, fields[i].key))
        ensures !Kept(fields[i]) ==> ChildPath(path, fields[i].key) in cuts
      {
        FieldCutsAreIn(fields, |fields|, path, i);
        KeptNames(fields[i], cuts, path);
      }
      forall key | Has(fields, key) ensures Has(left, key) || ChildPath(path, key) in cuts {
        ShrunkFieldsIff(fields, |fields|, key);
        assert fields[IndexOf(fields, key)].key == key;
      }
      forall i | 0 <= i < |left| ensures NamesField(left[i], fields, cuts, path) && Distinct(left) {
        ShrunkFieldsIff(fields, |fields|, left[i].key);
        GetIs(left, i);
        var j :| 0 <= j < |fields| && fields[j].key == left[i].key && Kept(fields[j]);
        GetIs(fields, j);
      }
      ShrunkFieldsIff(fields, |fields|, []);
    }
  }

  lemma {:induction false} CompactNames(v: Json, cuts: set<Path>, path: Path)
    requires OwnKeys(v) && CompactCuts(v, path) <= cuts
    ensures Names(Compact(v), v, cuts, path)
    decreases v
  {
    hide ChildPath, Identity, In;
    match v
    case Array(items) =>
      var k := Min(|items|, SHRINK_ARRAY_MAX);
      forall i | 0 <= i < k
        ensures CompactItems(items, k)[i] == Compact(items[i]) && Names(Compact(items[i]), items[i], cuts, path)
      {
        ItemCutsAreIn(items, k, path, i);
        CompactItemAt(items, k, i);
        CompactNames(items[i], cuts, path);
      }
    case Object(fields) =>
      forall i | 0 <= i < |fields| && fields[i].key !in IDENTITY_KEYS && fields[i].key !in PROTOTYPE_NAMES
        ensures HasRecords(fields[i].value) ==>
                  Names(Compact(fields[i].value), fields[i].value, cuts, ChildPath(path, fields[i].key))
        ensures !HasRecords(fields[i].value) ==> ChildPath(path, fields[i].key) in cuts
      {
        FieldCutsAreIn(fields, |fields|, path, i);
        IdentityIsKept(fields, i);
        if HasRecords(fields[i].value) {
          CompactNames(fields[i].value, cuts, ChildPath(path, fields[i].key));
        }
      }
      CompactRecordNames(fields, cuts, path);
    case _ =>
  }

  lemma CompactRecordNames(fields: seq<Field>, cuts: set<Path>, path: Path)
    requires OwnKeys(Object(fields))
    requires forall i :: 0 <= i < |fields| && fields[i].key !in IDENTITY_KEYS && fields[i].key !in PROTOTYPE_NAMES ==>
               if HasRecords(fields[i].value)
               then Names(Compact(fields[i].value), fields[i].value, cuts, ChildPath(path, fields[i].key))
               else ChildPath(path, fields[i].key) in cuts
    ensures Names(Compact(Object(fields)), Object(fields), cuts, path)
  {
    hide ChildPath, Identity, In, HasRecords;
    var left := CompactFields(fields, |fields|);
    assert Compact(Object(fields)) == Object(left);
    forall key | Has(fields, key) && !Has(left, key) ensures key in PROTOTYPE_NAMES || ChildPath(path, key) in cuts {
      CompactFieldsIff(fields, |fields|, key);
      assert fields[IndexOf(fields, key)].key == key;
    }
    forall i | 0 <= i < |left| ensures NamesField(left[i], fields, cuts, path) && Distinct(left) {
      CompactFieldsIff(fields, |fields|, left[i].key);
      GetIs(left, i);
      var f := fields[IndexOf(fields, left[i].key)];
      if f.key in IDENTITY_KEYS {
        NamesItself(f.value, cuts, ChildPath(path, f.key));
      } else {
        var j :| 0 <= j < |fields| && fields[j].key == left[i].key && HasRecords(fields[j].value);
        GetIs(fields, j);
      }
    }
    CompactFieldsIff(fields, |fields|, []);
  }

  /** Whatever stage the clipping of a result stopped at, the paths it gives name every loss. */
  lemma PreviewNames(output: Json)
    requires OwnKeys(output)
    ensures Names(Preview(output), output, CutPaths(output), ROOT)
  {
    hide Clipped, Shrunk, Compact, Fits, Names, OwnKeys, ClipCuts, ShrinkCuts, CompactCuts, Prunes;
    var cuts, first := CutPaths(output), Clipped(output);
    var second := SecondStage(first);
    ClippedNames(output, cuts, ROOT);
    ClippedPrunes(output);
    PrunedHasOwnKeys(first, output);
    StagesPrune(first);
    PrunedHasOwnKeys(second, first);
    NamesItself(first, cuts, ROOT);
    NamesItself(second, cuts, ROOT);
    if !Fits(first) {
      ShrunkNames(first, cuts, ROOT);
    }
    NamesOfNamed(second, first, output, cuts, ROOT);
    if !Fits(second) {
      CompactNames(second, cuts, ROOT);
    }
    NamesOfNamed(ThirdStage(second), second, output, cuts, ROOT);
  }

  /** The path of a way down: the names of the fields on it, an entry of a list going by the list's own. */
  function PathFrom(path: Path, turns: seq<Turn>): Path
    decreases |turns|
  {
    if turns == [] then path
    else PathFrom(if turns[0].Under? then ChildPath(path, turns[0].key) else path, turns[1..])
  }

  lemma {:induction false} NamesWay(a: Json, v: Json, cuts: set<Path>, path: Path, turns: seq<Turn>)
    requires Names(a, v, cuts, path) && At(a, turns).Some?
    ensures At(v, turns).Some? && Names(At(a, turns).value, At(v, turns).value, cuts, PathFrom(path, turns))
    decreases |turns|
  {
    hide ChildPath;
    if turns != [] {
      if turns[0].Under? {
        assert NamesField(a.fields[IndexOf(a.fields, turns[0].key)], v.fields, cuts, path);
        NamesWay(Reached(a, turns[0]), Reached(v, turns[0]), cuts, ChildPath(path, turns[0].key), turns[1..]);
      } else {
        NamesWay(Reached(a, turns[0]), Reached(v, turns[0]), cuts, path, turns[1..]);
      }
    }
  }

  /**
   * Wherever one looks in the preview, a list whose path was not cut is whole, a field
   * whose path was not cut is there if it was, unless it is called like a property that
   * every object has, and whatever is no list or record is as it was.
   */
  lemma LossesAreNamed(output: Json, turns: seq<Turn>)
    requires OwnKeys(output) && At(Preview(output), turns).Some?
    ensures At(output, turns).Some?
    ensures var left, was, path := At(Preview(output), turns).value, At(output, turns).value, PathFrom(ROOT, turns);
            && (was.Array? ==> left.Array? && (path !in CutPaths(output) ==> |left.items| == |was.items|))
            && (was.Object? ==>
                  && left.Object?
                  && forall key :: Has(was.fields, key) && key !in PROTOTYPE_NAMES && ChildPath(path, key) !in CutPaths(output) ==>
                       Has(left.fields, key))
            && (!was.Array? && !was.Object? ==> left == was)
  {
    hide Preview, CutPaths;
    PreviewNames(output);
    NamesWay(Preview(output), output, CutPaths(output), ROOT, turns);
  }

  /** The names of the fields on a way, in order. */
  function KeysOn(turns: seq<Turn>): seq<seq<CodeUnit>> {
    if turns == [] then []
    else (if turns[0].Under? then [turns[0].key] else []) + KeysOn(turns[1..])
  }

  /** These names, each after a point. */
  function Pointed(keys: seq<seq<CodeUnit>>): Path {
    if keys == [] then [] else [0x2E] + keys[0] + Pointed(keys[1..])
  }

  lemma NothingPointed()
    ensures Pointed([]) == []
  {
  }

  lemma PointedOne(path: Path, key: seq<CodeUnit>, keys: seq<seq<CodeUnit>>)
    ensures path + [0x2E] + key + Pointed(keys) == path + Pointed([key] + keys)
  {
    hide Pointed;
    assert Pointed([key] + keys) == [0x2E] + key + Pointed(keys) by {
      PointedFirst(key, keys);
    }
  }

  lemma PointedFirst(key: seq<CodeUnit>, keys: seq<seq<CodeUnit>>)
    ensures Pointed([key] + keys) == [0x2E] + key + Pointed(keys)
  {
    assert ([key] + keys)[1..] == keys;
  }

  lemma {:induction false} PathGoesOn(path: Path, turns: seq<Turn>)
    requires path != ROOT
    ensures PathFrom(path, turns) == path + Pointed(KeysOn(turns))
    decreases |turns|
  {
    hide Pointed;
    assert path + [] == path;
    NothingPointed();
    if turns != [] {
      if turns[0].Under? {
        var key := turns[0].key;
        PathGoesOn(ChildPath(path, key), turns[1..]);
        var keys := KeysOn(turns[1..]);
        assert KeysOn(turns) == [key] + keys;
        PointedOne(path, key, keys);
      } else {
        PathGoesOn(path, turns[1..]);
        assert KeysOn(turns) == KeysOn(turns[1..]);
      }
    }
  }

  /** A path is the names of the fields on it with points between, as long as the first is not empty. */
  lemma {:induction false} PathsArePointed(turns: seq<Turn>)
    requires KeysOn(turns) != [] ==> KeysOn(turns)[0] != []
    ensures PathFrom(ROOT, turns) == if KeysOn(turns) == [] then ROOT else KeysOn(turns)[0] + Pointed(KeysOn(turns)[1..])
    decreases |turns|
  {
    if turns != [] {
      if turns[0].Under? {
        assert KeysOn(turns)[1..] == KeysOn(turns[1..]);
        PathGoesOn(turns[0].key, turns[1..]);
      } else {
        assert KeysOn(turns) == KeysOn(turns[1..]);
        PathsArePointed(turns[1..]);
      }
    }
  }

  /** A row's dropped field goes by its path exactly when it is not called like a property every object has. */
  lemma RowNamesIff(fields: seq<Field>, path: Path, key: seq<CodeUnit>)
    requires Identity(fields) != [] && Has(fields, key) && key !in IDENTITY_KEYS
    ensures !Has(ShrunkRow(Object(fields)).fields, key)
    ensures ChildPath(path, key) in RowCuts(Object(fields), path) <==> key !in PROTOTYPE_NAMES
  {
    hide Identity;
    IdentityHas(fields, key);
    var f := fields[IndexOf(fields, key)];
    assert f in fields && f.key == key;
    forall other | ChildPath(path, other) == ChildPath(path, key) ensures other == key {
      if path != ROOT {
        assert (path + [0x2E] + other)[|path| + 1..] == other && (path + [0x2E] + key)[|path| + 1..] == key;
      }
    }
  }

  /** An id, and a text under the name by which every object prints itself. */
  function IdAndText(text: seq<CodeUnit>): seq<Field> {
    [Field(Units("id"), Null), Field(Units("toString"), Text(text))]
  }

  lemma NotAnIdentity()
    ensures Units("toString") !in IDENTITY_KEYS
  {
    var name := Units("toString");
    assert |name| == 8 && name[0] == 0x74;
    assert Units("customer")[0] == 0x63 && Units("currency")[0] == 0x63 && Units("isActive")[0] == 0x69;
  }

  lemma AllAlike(fields: seq<Field>, f: Field)
    requires |fields| > 1 && forall i :: 0 <= i < |fields| ==> fields[i] == f
    ensures !Distinct(fields)
  {
    assert fields[0].key == fields[1].key;
  }

  lemma AtMostOne(fields: seq<Field>, f: Field)
    requires Distinct(fields) && forall i :: 0 <= i < |fields| ==> fields[i] == f
    ensures |fields| <= 1
  {
    if |fields| > 1 {
      AllAlike(fields, f);
    }
  }

  lemma OnlyTheIdIsKept(text: seq<CodeUnit>)
    ensures Identity(IdAndText(text)) == [Field(Units("id"), Null)] && OwnKeys(Object(IdAndText(text)))
    ensures RowCuts(Object(IdAndText(text)), ROOT) == {}
  {
    hide Units, Identity, ChildPath;
    var fields := IdAndText(text);
    NotAnIdentity();
    assert Units("id") == IDENTITY_KEYS[0] && Units("toString") == PROTOTYPE_NAMES[5];
    assert fields[0].key == Units("id") && fields[1].key == Units("toString");
    GetIs(fields, 0);
    IdentityHas(fields, Units("id"));
    var left := Identity(fields);
    forall i | 0 <= i < |left| ensures left[i] == Field(Units("id"), Null) {
      IdentityHas(fields, left[i].key);
      GetIs(left, i);
    }
    assert Distinct(left) && Has(left, Units("id"));
    AtMostOne(left, Field(Units("id"), Null));
    assert left == [left[0]];
  }

  lemma LengthsAround(text: seq<CodeUnit>)
    ensures TextLength(Array([Object(IdAndText(text))])) > |Quoted(text)|
    ensures Fits(Array([Object([Field(Units("id"), Null)])]))
  {
    hide Quoted, Units;
    var fields, left := IdAndText(text), [Field(Units("id"), Null)];
    NameLength("id");
    ObjectLength(fields);
    ObjectLength(left);
    ArrayLength([Object(fields)]);
    ArrayLength([Object(left)]);
    assert fields[..1] == left && left[..0] == [];
    assert [Object(fields)][..0] == [] && [Object(left)][..0] == [];
  }

  /** So over a long text under that name the preview drops it, and no path says so. */
  lemma PrintingNameGoesUnnamed(text: seq<CodeUnit>)
    requires |Quoted(text)| > JSON_MAX
    ensures var output := Array([Object(IdAndText(text))]);
            Preview(output) == Array([Object([Field(Units("id"), Null)])]) && CutPaths(output) == {}
  {
    hide Units, Quoted, Identity, IdAndText, RowCuts, Clipped, Compact, JsonLength, TextLength, Print;
    var row := Object(IdAndText(text));
    var output := Array([row]);
    OnlyTheIdIsKept(text);
    LengthsAround(text);
    RowIsWithinCap(text);
    ClippedKeepsWhatFits(output);
    NothingCutIff(output, ROOT);
    ShrunkKeepsThreeRows([row]);
    assert Shrunk(output).items == [ShrunkRow(row)];
    assert RowsCuts([row], 1, ROOT) == RowsCuts([row], 0, ROOT) + RowCuts(row, ROOT);
    LongIsNoFit(output);
  }

  lemma RowIsWithinCap(text: seq<CodeUnit>)
    ensures WithinCap(Array([Object(IdAndText(text))]))
  {
  }

  lemma LongIsNoFit(v: Json)
    requires TextLength(v) > JSON_MAX
    ensures !Fits(v)
  {
  }

  // -------------------------------------------------------- nothing else is named

  /** Something at the end of this way is gone: all of it, or entries of its list. */
  ghost predicate Lost(a: Json, v: Json, turns: seq<Turn>) {
    && At(v, turns).Some?
    && (At(a, turns).Some? ==>
          At(a, turns).value.Array? && At(v, turns).value.Array? && |At(a, turns).value.items| < |At(v, turns).value.items|)
  }

  ghost predicate LostAt(a: Json, v: Json, path: Path, cut: Path) {
    exists turns :: PathFrom(path, turns) == cut && Lost(a, v, turns)
  }

  lemma LostBelow(a: Json, v: Json, turn: Turn, path: Path, cut: Path)
    requires Leads(a, turn) && Leads(v, turn)
    requires LostAt(Reached(a, turn), Reached(v, turn), if turn.Under? then ChildPath(path, turn.key) else path, cut)
    ensures LostAt(a, v, path, cut)
  {
    hide ChildPath;
    var from := if turn.Under? then ChildPath(path, turn.key) else path;
    var turns :| PathFrom(from, turns) == cut && Lost(Reached(a, turn), Reached(v, turn), turns);
    assert ([turn] + turns)[1..] == turns;
    assert PathFrom(path, [turn] + turns) == cut && Lost(a, v, [turn] + turns);
  }

  lemma LostHere(items: seq<Json>, left: seq<Json>, path: Path)
    requires |left| < |items|
    ensures LostAt(Array(left), Array(items), path, path)
  {
    assert PathFrom(path, []) == path && Lost(Array(left), Array(items), []);
  }

  lemma FieldLost(left: seq<Field>, fields: seq<Field>, key: seq<CodeUnit>, path: Path)
    requires Has(fields, key) && !Has(left, key)
    ensures LostAt(Object(left), Object(fields), path, ChildPath(path, key))
  {
    hide ChildPath;
    var turns := [Under(key)];
    assert PathFrom(path, turns) == PathFrom(ChildPath(path, key), []);
    assert turns[1..] == [] && !Leads(Object(left), turns[0]);
    assert At(Object(fields), turns) == At(Get(fields, key), []);
    assert Lost(Object(left), Object(fields), turns);
  }

  lemma {:induction false} ItemOfCut(items: seq<Json>, k: nat, path: Path, cut: Path) returns (i: nat)
    requires k <= |items| && cut in ItemsCuts(items, k, path)
    ensures i < k && cut in ClipCuts(items[i], path)
    decreases k
  {
    i := k - 1;
    if cut !in ClipCuts(items[k - 1], path) {
      i := ItemOfCut(items, k - 1, path, cut);
    }
  }

  lemma {:induction false} FieldOfCut(fields: seq<Field>, k: nat, path: Path, cut: Path) returns (i: nat)
    requires k <= |fields| && cut in FieldsCuts(fields, k, path)
    ensures i < k && cut in ClipCuts(fields[i].value, ChildPath(path, fields[i].key))
    decreases k
  {
    hide ChildPath;
    i := k - 1;
    if cut !in ClipCuts(fields[k - 1].value, ChildPath(path, fields[k - 1].key)) {
      i := FieldOfCut(fields, k - 1, path, cut);
    }
  }

  lemma {:induction false} ClipCutIsLoss(v: Json, path: Path, cut: Path)
    requires OwnKeys(v) && cut in ClipCuts(v, path)
    ensures LostAt(Clipped(v), v, path, cut)
    decreases v
  {
    hide ChildPath, LostAt;
    match v
    case Array(items) =>
      ArrayKeepsAPrefix(items);
      var k := Min(|items|, ARRAY_MAX);
      if cut in ItemsCuts(items, k, path) {
        var i := ItemOfCut(items, k, path, cut);
        ClipCutIsLoss(items[i], path, cut);
        LostBelow(Clipped(v), v, Entry(i), path, cut);
      } else {
        LostHere(items, Clipped(v).items, path);
      }
    case Object(fields) =>
      ObjectKeepsItsFields(fields);
      var i := FieldOfCut(fields, |fields|, path, cut);
      var kept := Clipped(v).fields;
      GetIs(fields, i);
      GetIs(kept, i);
      ClipCutIsLoss(fields[i].value, ChildPath(path, fields[i].key), cut);
      LostBelow(Clipped(v), v, Under(fields[i].key), path, cut);
    case _ =>
  }

  lemma RowCutIsLoss(v: Json, path: Path, cut: Path)
    requires cut in RowCuts(v, path)
    ensures LostAt(ShrunkRow(v), v, path, cut)
  {
    hide ChildPath, LostAt;
    var f :| f in v.fields && !In(f.key, Identity(v.fields)) && ChildPath(path, f.key) == cut;
    FieldLost(Identity(v.fields), v.fields, f.key, path);
  }

  lemma {:induction false} RowOfCut(items: seq<Json>, k: nat, path: Path, cut: Path) returns (i: nat)
    requires k <= |items| && cut in RowsCuts(items, k, path)
    ensures i < k && cut in RowCuts(items[i], path)
    decreases k
  {
    hide RowCuts;
    i := k - 1;
    if cut !in RowCuts(items[k - 1], path) {
      i := RowOfCut(items, k - 1, path, cut);
    }
  }

  lemma ArrayCutIsLoss(items: seq<Json>, path: Path, cut: Path)
    requires cut in ArrayCuts(items, path)
    ensures LostAt(ShrunkArray(items), Array(items), path, cut)
  {
    hide RowCuts, LostAt, ShrunkRow;
    ShrunkKeepsThreeRows(items);
    var k := Min(|items|, SHRINK_ARRAY_MAX);
    if cut in RowsCuts(items, k, path) {
      var i := RowOfCut(items, k, path, cut);
      RowCutIsLoss(items[i], path, cut);
      LostBelow(ShrunkArray(items), Array(items), Entry(i), path, cut);
    } else {
      LostHere(items, ShrunkArray(items).items, path);
    }
  }

  lemma {:induction false} KeptOfCut(fields: seq<Field>, k: nat, path: Path, cut: Path) returns (i: nat)
    requires k <= |fields| && cut in ShrunkFieldsCuts(fields, k, path)
    ensures i < k && cut in KeptCuts(fields[i], path)
    decreases k
  {
    hide KeptCuts;
    i := k - 1;
    if cut !in KeptCuts(fields[k - 1], path) {
      i := KeptOfCut(fields, k - 1, path, cut);
    }
  }

  lemma KeptCutIsLoss(f: Field, path: Path, cut: Path)
    requires cut in KeptCuts(f, path)
    ensures Kept(f) ==> LostAt(KeptAs(f), f.value, ChildPath(path, f.key), cut)
    ensures !Kept(f) ==> cut == ChildPath(path, f.key)
  {
    hide ChildPath, RowCuts, ArrayCuts, LostAt, ShrunkArray, ShrunkRow;
    if f.value.Array? {
      ArrayCutIsLoss(f.value.items, ChildPath(path, f.key), cut);
    } else if f.value.Object? {
      RowCutIsLoss(f.value, ChildPath(path, f.key), cut);
    }
  }

  lemma ShrinkCutIsLoss(v: Json, path: Path, cut: Path)
    requires OwnKeys(v) && cut in ShrinkCuts(v, path)
    ensures LostAt(Shrunk(v), v, path, cut)
  {
    hide ChildPath, Kept, KeptAs, KeptCuts, ArrayCuts, LostAt, ShrunkArray;
    if v.Array? {
      ArrayCutIsLoss(v.items, path, cut);
    } else {
      var fields := v.fields;
      var i := KeptOfCut(fields, |fields|, path, cut);
      var key := fields[i].key;
      KeptCutIsLoss(fields[i], path, cut);
      ShrunkFieldsIff(fields, |fields|, key);
      GetIs(fields, i);
      if Kept(fields[i]) {
        LostBelow(Shrunk(v), v, Under(key), path, cut);
      } else {
        FieldLost(ShrunkFields(fields, |fields|), fields, key, path);
      }
    }
  }

  lemma {:induction false} CompactItemOfCut(items: seq<Json>, k: nat, path: Path, cut: Path) returns (i: nat)
    requires k <= |items| && cut in CompactItemsCuts(items, k, path)
    ensures i < k && cut in CompactCuts(items[i], path)
    decreases k
  {
    i := k - 1;
    if cut !in CompactCuts(items[k - 1], path) {
      i := CompactItemOfCut(items, k - 1, path, cut);
    }
  }

  lemma {:induction false} CompactFieldOfCut(fields: seq<Field>, k: nat, path: Path, cut: Path) returns (i: nat)
    requires k <= |fields| && cut in CompactFieldsCuts(fields, k, path)
    ensures i < k && cut in FieldCompactCuts(fields, i, path)
    decreases k
  {
    hide ChildPath, In, HasRecords, CompactCuts, CompactFields;
    i := k - 1;
    if cut !in FieldCompactCuts(fields, k - 1, path) {
      i := CompactFieldOfCut(fields, k - 1, path, cut);
    }
  }

  /** A cut at one field: of the field itself, or of what its list lost. */
  lemma FieldCutIsLoss(fields: seq<Field>, i: nat, path: Path, cut: Path)
    requires OwnKeys(Object(fields)) && i < |fields| && cut in FieldCompactCuts(fields, i, path)
    requires var f := fields[i];
             HasRecords(f.value) && cut in CompactCuts(f.value, ChildPath(path, f.key)) ==>
               LostAt(Compact(f.value), f.value, ChildPath(path, f.key), cut)
    ensures LostAt(Compact(Object(fields)), Object(fields), path, cut)
  {
    hide ChildPath, LostAt, In, HasRecords, CompactCuts;
    var key, left := fields[i].key, CompactFields(fields, |fields|);
    assert Compact(Object(fields)) == Object(left);
    IdentityIsKept(fields, i);
    CompactFieldsIff(fields, |fields|, key);
    GetIs(fields, i);
    if HasRecords(fields[i].value) {
      LostBelow(Object(left), Object(fields), Under(key), path, cut);
    } else {
      assert forall k :: 0 <= k < |fields| && fields[k].key == key ==> k == i;
      FieldLost(left, fields, key, path);
    }
  }

  lemma {:induction false} CompactCutIsLoss(v: Json, path: Path, cut: Path)
    requires OwnKeys(v) && cut in CompactCuts(v, path)
    ensures LostAt(Compact(v), v, path, cut)
    decreases v
  {
    hide ChildPath, LostAt, In, HasRecords, CompactFields, FieldCompactCuts, CompactItemsCuts, CompactFieldsCuts;
    match v
    case Array(items) =>
      var k := Min(|items|, SHRINK_ARRAY_MAX);
      if cut in CompactItemsCuts(items, k, path) {
        var i := CompactItemOfCut(items, k, path, cut);
        CompactItemAt(items, k, i);
        CompactCutIsLoss(items[i], path, cut);
        LostBelow(Compact(v), v, Entry(i), path, cut);
      } else {
        LostHere(items, Compact(v).items, path);
      }
    case Object(fields) =>
      var i := CompactFieldOfCut(fields, |fields|, path, cut);
      if cut in CompactCuts(fields[i].value, ChildPath(path, fields[i].key)) {
        CompactCutIsLoss(fields[i].value, ChildPath(path, fields[i].key), cut);
      }
      FieldCutIsLoss(fields, i, path, cut);
    case _ =>
  }

  /** What one stage lost is lost in the end. */
  lemma LossStays(p: Json, a: Json, b: Json, v: Json, cut: Path)
    requires Prunes(p, a) && Prunes(b, v) && LostAt(a, b, ROOT, cut)
    ensures LostAt(p, v, ROOT, cut)
  {
    hide Prunes, PathFrom;
    var turns :| PathFrom(ROOT, turns) == cut && Lost(a, b, turns);
    PrunesWay(b, v, turns);
    PrunedListIsShorter(At(b, turns).value, At(v, turns).value);
    if At(p, turns).Some? {
      PrunesWay(p, a, turns);
      PrunedListIsShorter(At(p, turns).value, At(a, turns).value);
    }
    assert Lost(p, v, turns);
  }

  lemma PrunedListIsShorter(a: Json, v: Json)
    requires Prunes(a, v)
    ensures a.Array? <==> v.Array?
    ensures a.Array? ==> |a.items| <= |v.items|
  {
  }

  /** And no path is given but of something that is gone: a list that is shorter, or what was there at all. */
  lemma CutsAreLosses(output: Json, cut: Path)
    requires OwnKeys(output) && cut in CutPaths(output)
    ensures exists turns :: PathFrom(ROOT, turns) == cut && Lost(Preview(output), output, turns)
  {
    hide Clipped, Shrunk, Compact, Fits, OwnKeys, ClipCuts, ShrinkCuts, CompactCuts, Prunes;
    var first := Clipped(output);
    var second, preview := SecondStage(first), Preview(output);
    ClippedPrunes(output);
    PrunedHasOwnKeys(first, output);
    StagesPrune(first);
    PrunesOfPruned(second, first, output);
    PrunedHasOwnKeys(second, first);
    StagesPrune(second);
    PrunesOfPruned(preview, second, first);
    PrunesItself(output);
    PrunedHasOwnKeys(preview, second);
    PrunesItself(preview);
    if cut in ClipCuts(output, ROOT) {
      ClipCutIsLoss(output, ROOT, cut);
      LossStays(preview, first, output, output, cut);
    } else if !Fits(first) && cut in ShrinkCuts(first, ROOT) {
      ShrinkCutIsLoss(first, ROOT, cut);
      LossStays(preview, second, first, output, cut);
    } else {
      CompactCutIsLoss(second, ROOT, cut);
      LossStays(preview, preview, second, output, cut);
    }
    assert LostAt(preview, output, ROOT, cut);
  }

  // ------------------------------------------------------------- what was omitted

  /** The entries of the lists that the first stage comes to. */
  function Entries(v: Json): nat
    decreases v
  {
    match v
    case Array(items) => |items| + EntriesIn(items, Min(|items|, 50))
    case Object(fields) => EntriesUnder(fields, |fields|)
    case _ => 0
  }

  function EntriesIn(items: seq<Json>, k: nat): nat
    requires k <= |items|
    decreases items, k
  {
    if k == 0 then 0 else EntriesIn(items, k - 1) + Entries(items[k - 1])
  }

  function EntriesUnder(fields: seq<Field>, k: nat): nat
    requires k <= |fields|
    decreases fields, k
  {
    if k == 0 then 0 else EntriesUnder(fields, k - 1) + Entries(fields[k - 1].value)
  }

  lemma {:induction false} ItemsOmit(items: seq<Json>, left: seq<Json>, k: nat)
    requires k <= |left| <= |items|
    requires forall i :: 0 <= i < k ==> Entries(items[i]) == Entries(left[i]) + Omitted(items[i])
    ensures EntriesIn(items, k) == EntriesIn(left, k) + OmittedItems(items, k)
    decreases k
  {
    hide Entries, Omitted;
    if k > 0 {
      ItemsOmit(items, left, k - 1);
    }
  }

  lemma {:induction false} FieldsOmit(fields: seq<Field>, left: seq<Field>, k: nat)
    requires k <= |left| == |fields|
    requires forall i :: 0 <= i < k ==> Entries(fields[i].value) == Entries(left[i].value) + Omitted(fields[i].value)
    ensures EntriesUnder(fields, k) == EntriesUnder(left, k) + OmittedFields(fields, k)
    decreases k
  {
    hide Entries, Omitted;
    if k > 0 {
      FieldsOmit(fields, left, k - 1);
    }
  }

  /** What is omitted is what the lists that are kept lose. */
  lemma {:induction false} OmittedIsTheLoss(v: Json)
    requires OwnKeys(v)
    ensures Entries(v) == Entries(Clipped(v)) + Omitted(v)
    decreases v
  {
    match v
    case Array(items) =>
      ArrayKeepsAPrefix(items);
      var left, k := Clipped(v).items, Min(|items|, ARRAY_MAX);
      forall i | 0 <= i < k ensures Entries(items[i]) == Entries(left[i]) + Omitted(items[i]) {
        OmittedIsTheLoss(items[i]);
      }
      ItemsOmit(items, left, k);
    case Object(fields) =>
      ObjectKeepsItsFields(fields);
      var left := Clipped(v).fields;
      forall i | 0 <= i < |fields| ensures Entries(fields[i].value) == Entries(left[i].value) + Omitted(fields[i].value) {
        OmittedIsTheLoss(fields[i].value);
      }
      FieldsOmit(fields, left, |fields|);
    case _ =>
  }

  /** An object of this kind says that a call failed, and why. */
  ghost predicate SaysWhy(v: Json) {
    && v.Object?
    && (exists f :: f in v.fields && f == Field(Units("status"), Text(Units("error"))))
    && (exists f :: f in v.fields && f.key == Units("code") && f.value.Text?)
    && (exists f :: f in v.fields && f.key == Units("message") && f.value.Text?)
  }

  lemma FieldIsSet(fields: seq<Field>, key: seq<CodeUnit>)
    requires Distinct(fields)
    ensures Has(fields, key) <==> exists f :: f in fields && f.key == key
    ensures forall f :: f in fields && f.key == key ==> Get(fields, key) == f.value
    ensures Has(fields, key) ==> Field(key, Get(fields, key)) in fields
  {
    if Has(fields, key) {
      assert fields[IndexOf(fields, key)] in fields;
    }
  }

  /**
   * A result is given on as it is exactly when it says why a call failed, or is of
   * 22000 units at most and loses no entry; an envelope counts the entries it lost,
   * and one when it lost none.
   */
  lemma WholeOrCounted(output: Json)
    requires OwnKeys(output)
    ensures var r, lost := Returned(output), Entries(output) - Entries(Clipped(output));
            && lost >= 0
            && (r.Whole? <==> SaysWhy(output) || (!output.Unset? && Serializable(output) && TextLength(output) <= 22_000 && lost == 0))
            && (r.Whole? ==> r.output == output)
            && (r.Envelope? ==> r.omitted == if lost > 0 then lost else 1)
  {
    hide Clipped, Shrunk, Compact, WithinCap, Entries, Omitted, IsTypedToolError, SaysWhy, OwnKeys;
    OmittedIsTheLoss(output);
    NothingOmittedIff(output);
    DroppedNothingIff(output);
    SaysWhyIff(output);
  }

  lemma SaysWhyIff(output: Json)
    requires OwnKeys(output)
    ensures SaysWhy(output) <==> IsTypedToolError(output)
  {
    hide Units, Has, Get;
    if output.Object? {
      FieldIsSet(output.fields, Units("status"));
      FieldIsSet(output.fields, Units("code"));
      FieldIsSet(output.fields, Units("message"));
    }
  }
}

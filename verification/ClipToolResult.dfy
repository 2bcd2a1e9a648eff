/**
 * Clipping a large tool result before the model reads it again
 * (packages/ai/src/clip-tool-result.ts): arrays are capped, then rows shrink to
 * their identity fields, then only identity is kept.
 */
module ClipToolResult {
  import opened JsonChars
  import opened JsonSize

  const ARRAY_MAX := 50
  const SHRINK_ARRAY_MAX := 3
  const JSON_MAX := 22000

  type Path = seq<CodeUnit>

  const ROOT: Path := []

  /** A literal as code units. */
  function Units(s: string): (r: seq<CodeUnit>)
    ensures |r| == |s|
  {
    seq(|s|, i requires 0 <= i < |s| => if s[i] < 128 as char then s[i] as CodeUnit else 0)
  }

  const IDENTITY_KEYS: seq<seq<CodeUnit>> := [
    Units("id"), Units("itemId"), Units("orderId"), Units("orderNumber"), Units("customerId"), Units("customer"),
    Units("documentId"), Units("name"), Units("titleSnapshot"), Units("status"), Units("nextCursor"),
    Units("itemCount"), Units("basePriceMinor"), Units("currency"), Units("phone"), Units("email"),
    Units("groupId"), Units("priceListId"), Units("requestedLimit"), Units("hasMore"), Units("isActive"),
    Units("isDefault"), Units("entryCount"), Units("variantCount")]

  /** Names every plain object answers to with `in`, set or not. */
  const PROTOTYPE_NAMES: seq<seq<CodeUnit>> := [
    Units("constructor"), Units("hasOwnProperty"), Units("isPrototypeOf"), Units("propertyIsEnumerable"),
    Units("toLocaleString"), Units("toString"), Units("valueOf"), Units("__defineGetter__"),
    Units("__defineSetter__"), Units("__lookupGetter__"), Units("__lookupSetter__"), Units("__proto__")]

  predicate In(key: seq<CodeUnit>, fields: seq<Field>) {
    Has(fields, key) || key in PROTOTYPE_NAMES
  }

  function ChildPath(path: Path, key: seq<CodeUnit>): Path {
    if path == ROOT then key else path + [0x2E] + key
  }

  function Min(a: nat, b: nat): nat {
    if a < b then a else b
  }

  /** An object of the language names each of its own properties once. */
  predicate OwnKeys(v: Json) {
    match v
    case Array(items) => forall i :: 0 <= i < |items| ==> OwnKeys(items[i])
    case Object(fields) => Distinct(fields) && forall i :: 0 <= i < |fields| ==> OwnKeys(fields[i].value)
    case _ => true
  }

  /** A stage never lengthens a value, hides one that was set, or breaks its printing. */
  ghost predicate NoLonger(a: Json, v: Json) {
    && TextLength(a) <= TextLength(v)
    && (a.Unset? <==> v.Unset?)
    && (Serializable(v) ==> Serializable(a))
  }

  // --------------------------------------------------------- stage 1: the array cap

  function Clipped(v: Json): Json
    decreases v
  {
    match v
    case Array(items) => Array(ClippedItems(items, Min(|items|, ARRAY_MAX)))
    case Object(fields) => Object(ClippedFields(fields, |fields|))
    case _ => v
  }

  function ClippedItems(items: seq<Json>, k: nat): (r: seq<Json>)
    requires k <= |items|
    ensures |r| == k
    decreases items, k
  {
    if k == 0 then [] else ClippedItems(items, k - 1) + [Clipped(items[k - 1])]
  }

  function ClippedFields(fields: seq<Field>, k: nat): seq<Field>
    requires k <= |fields|
    decreases fields, k
  {
    if k == 0 then [] else Assign(ClippedFields(fields, k - 1), fields[k - 1].key, Clipped(fields[k - 1].value))
  }

  /** How many entries the cap drops, in every array that is kept. */
  function Omitted(v: Json): nat
    decreases v
  {
    match v
    case Array(items) =>
      var kept := Min(|items|, ARRAY_MAX);
      |items| - kept + OmittedItems(items, kept)
    case Object(fields) => OmittedFields(fields, |fields|)
    case _ => 0
  }

  function OmittedItems(items: seq<Json>, k: nat): nat
    requires k <= |items|
    decreases items, k
  {
    if k == 0 then 0 else OmittedItems(items, k - 1) + Omitted(items[k - 1])
  }

  function OmittedFields(fields: seq<Field>, k: nat): nat
    requires k <= |fields|
    decreases fields, k
  {
    if k == 0 then 0 else OmittedFields(fields, k - 1) + Omitted(fields[k - 1].value)
  }

  function ClipCuts(v: Json, path: Path): set<Path>
    decreases v
  {
    match v
    case Array(items) =>
      (if |items| > ARRAY_MAX then {path} else {}) + ItemsCuts(items, Min(|items|, ARRAY_MAX), path)
    case Object(fields) => FieldsCuts(fields, |fields|, path)
    case _ => {}
  }

  function ItemsCuts(items: seq<Json>, k: nat, path: Path): set<Path>
    requires k <= |items|
    decreases items, k
  {
    if k == 0 then {} else ItemsCuts(items, k - 1, path) + ClipCuts(items[k - 1], path)
  }

  function FieldsCuts(fields: seq<Field>, k: nat, path: Path): set<Path>
    requires k <= |fields|
    decreases fields, k
  {
    if k == 0 then {}
    else FieldsCuts(fields, k - 1, path) + ClipCuts(fields[k - 1].value, ChildPath(path, fields[k - 1].key))
  }

  /** No array anywhere holds more than the cap. */
  predicate WithinCap(v: Json) {
    match v
    case Array(items) => |items| <= ARRAY_MAX && forall i :: 0 <= i < |items| ==> WithinCap(items[i])
    case Object(fields) => forall i :: 0 <= i < |fields| ==> WithinCap(fields[i].value)
    case _ => true
  }

  lemma {:induction false} ClippedItemAt(items: seq<Json>, k: nat, i: nat)
    requires i < k <= |items|
    ensures ClippedItems(items, k)[i] == Clipped(items[i])
    decreases k
  {
    if i < k - 1 {
      ClippedItemAt(items, k - 1, i);
    }
  }

  /** Where own keys are distinct, the fields keep their places. */
  lemma {:induction false} ClippedFieldAt(fields: seq<Field>, k: nat, i: nat)
    requires Distinct(fields) && i < k <= |fields|
    ensures |ClippedFields(fields, k)| == k
    ensures ClippedFields(fields, k)[i] == Field(fields[i].key, Clipped(fields[i].value))
    decreases k
  {
    if k == 1 {
    } else {
      ClippedFieldAt(fields, k - 1, if i < k - 1 then i else 0);
      var before := ClippedFields(fields, k - 1);
      forall j | 0 <= j < k - 1 ensures before[j].key != fields[k - 1].key {
        ClippedFieldAt(fields, k - 1, j);
      }
      assert !Has(before, fields[k - 1].key);
    }
  }

  /** The first stage keeps a prefix of every array, each entry clipped the same way. */
  lemma ArrayKeepsAPrefix(items: seq<Json>)
    ensures Clipped(Array(items)).Array?
    ensures var kept := Clipped(Array(items)).items;
            |kept| == Min(|items|, ARRAY_MAX) && forall i :: 0 <= i < |kept| ==> kept[i] == Clipped(items[i])
  {
    forall i | 0 <= i < Min(|items|, ARRAY_MAX)
      ensures ClippedItems(items, Min(|items|, ARRAY_MAX))[i] == Clipped(items[i])
    {
      ClippedItemAt(items, Min(|items|, ARRAY_MAX), i);
    }
  }

  /** And every field of an object, in its place. */
  lemma ObjectKeepsItsFields(fields: seq<Field>)
    requires Distinct(fields)
    ensures Clipped(Object(fields)).Object?
    ensures var kept := Clipped(Object(fields)).fields;
            && |kept| == |fields|
            && forall i :: 0 <= i < |fields| ==> kept[i] == Field(fields[i].key, Clipped(fields[i].value))
  {
    if fields != [] {
      ClippedFieldAt(fields, |fields|, 0);
    }
    forall i | 0 <= i < |fields|
      ensures ClippedFields(fields, |fields|)[i] == Field(fields[i].key, Clipped(fields[i].value))
    {
      ClippedFieldAt(fields, |fields|, i);
    }
  }

  /** After the first stage every array is within the cap. */
  lemma {:induction false} ClippedIsWithinCap(v: Json)
    requires OwnKeys(v)
    ensures WithinCap(Clipped(v))
    decreases v
  {
    match v
    case Array(items) =>
      ArrayKeepsAPrefix(items);
      forall i | 0 <= i < Min(|items|, ARRAY_MAX) ensures WithinCap(Clipped(items[i])) {
        ClippedIsWithinCap(items[i]);
      }
    case Object(fields) =>
      ObjectKeepsItsFields(fields);
      forall i | 0 <= i < |fields| ensures WithinCap(Clipped(fields[i].value)) {
        ClippedIsWithinCap(fields[i].value);
      }
    case _ =>
  }

  /** The first stage changes nothing where nothing is over the cap. */
  lemma {:induction false} ClippedKeepsWhatFits(v: Json)
    requires OwnKeys(v) && WithinCap(v)
    ensures Clipped(v) == v
    decreases v
  {
    match v
    case Array(items) =>
      ArrayKeepsAPrefix(items);
      forall i | 0 <= i < |items| ensures Clipped(v).items[i] == items[i] {
        ClippedKeepsWhatFits(items[i]);
      }
      assert Clipped(v).items == items;
    case Object(fields) =>
      ObjectKeepsItsFields(fields);
      forall i | 0 <= i < |fields| ensures Clipped(v).fields[i] == fields[i] {
        ClippedKeepsWhatFits(fields[i].value);
      }
      assert Clipped(v).fields == fields;
    case _ =>
  }

  lemma {:induction false} OmittedItemsIsZero(items: seq<Json>, k: nat)
    requires k <= |items|
    ensures OmittedItems(items, k) == 0 <==> forall i :: 0 <= i < k ==> Omitted(items[i]) == 0
    decreases k
  {
    if k > 0 {
      OmittedItemsIsZero(items, k - 1);
    }
  }

  lemma {:induction false} OmittedFieldsIsZero(fields: seq<Field>, k: nat)
    requires k <= |fields|
    ensures OmittedFields(fields, k) == 0 <==> forall i :: 0 <= i < k ==> Omitted(fields[i].value) == 0
    decreases k
  {
    if k > 0 {
      OmittedFieldsIsZero(fields, k - 1);
    }
  }

  /** Nothing was omitted exactly when no array was over the cap. */
  lemma {:induction false} NothingOmittedIff(v: Json)
    ensures Omitted(v) == 0 <==> WithinCap(v)
    decreases v
  {
    match v
    case Array(items) =>
      OmittedItemsIsZero(items, Min(|items|, ARRAY_MAX));
      forall i | 0 <= i < |items| ensures Omitted(items[i]) == 0 <==> WithinCap(items[i]) {
        NothingOmittedIff(items[i]);
      }
    case Object(fields) =>
      OmittedFieldsIsZero(fields, |fields|);
      forall i | 0 <= i < |fields| ensures Omitted(fields[i].value) == 0 <==> WithinCap(fields[i].value) {
        NothingOmittedIff(fields[i].value);
      }
    case _ =>
  }

  lemma {:induction false} ItemsCutNone(items: seq<Json>, k: nat, path: Path)
    requires k <= |items|
    ensures ItemsCuts(items, k, path) == {} <==> forall i :: 0 <= i < k ==> ClipCuts(items[i], path) == {}
    decreases k
  {
    if k > 0 {
      ItemsCutNone(items, k - 1, path);
    }
  }

  lemma {:induction false} FieldsCutNone(fields: seq<Field>, k: nat, path: Path)
    requires k <= |fields|
    ensures FieldsCuts(fields, k, path) == {} <==>
            forall i :: 0 <= i < k ==> ClipCuts(fields[i].value, ChildPath(path, fields[i].key)) == {}
    decreases k
  {
    if k > 0 {
      FieldsCutNone(fields, k - 1, path);
    }
  }

  /** And no path was cut exactly then. */
  lemma {:induction false} NothingCutIff(v: Json, path: Path)
    ensures ClipCuts(v, path) == {} <==> WithinCap(v)
    decreases v
  {
    match v
    case Array(items) =>
      ItemsCutNone(items, Min(|items|, ARRAY_MAX), path);
      forall i | 0 <= i < |items| ensures ClipCuts(items[i], path) == {} <==> WithinCap(items[i]) {
        NothingCutIff(items[i], path);
      }
      assert |items| > ARRAY_MAX ==> path in ClipCuts(v, path);
    case Object(fields) =>
      FieldsCutNone(fields, |fields|, path);
      forall i | 0 <= i < |fields|
        ensures ClipCuts(fields[i].value, ChildPath(path, fields[i].key)) == {} <==> WithinCap(fields[i].value)
      {
        NothingCutIff(fields[i].value, ChildPath(path, fields[i].key));
      }
    case _ =>
  }

  /** What a longer-lived field covers. */
  lemma FieldShrinks(record: seq<Field>, j: nat, value: Json)
    requires j < |record| && NoLonger(value, record[j].value)
    ensures Covers(record, Field(record[j].key, value))
  {
    assert FieldCost(Field(record[j].key, value)) <= FieldCost(record[j]);
  }

  ghost predicate AllSerializable(fields: seq<Field>) {
    forall i :: 0 <= i < |fields| ==> Serializable(fields[i].value)
  }

  lemma AssignSerializable(fields: seq<Field>, key: seq<CodeUnit>, value: Json)
    requires AllSerializable(fields) && Serializable(value)
    ensures AllSerializable(Assign(fields, key, value))
  {
  }

  lemma {:induction false} ClippedFieldsCovered(fields: seq<Field>, k: nat)
    requires k <= |fields|
    requires forall i :: 0 <= i < k ==> NoLonger(Clipped(fields[i].value), fields[i].value)
    ensures Covered(ClippedFields(fields, k), fields)
    ensures AllSerializable(fields) ==> AllSerializable(ClippedFields(fields, k))
    decreases k
  {
    if k > 0 {
      ClippedFieldsCovered(fields, k - 1);
      FieldShrinks(fields, k - 1, Clipped(fields[k - 1].value));
      AssignCovered(ClippedFields(fields, k - 1), fields, fields[k - 1].key, Clipped(fields[k - 1].value));
      if AllSerializable(fields) {
        AssignSerializable(ClippedFields(fields, k - 1), fields[k - 1].key, Clipped(fields[k - 1].value));
      }
    }
  }

  lemma {:induction false} ClippedIsNoLonger(v: Json)
    ensures NoLonger(Clipped(v), v)
    decreases v
  {
    match v
    case Array(items) =>
      ArrayKeepsAPrefix(items);
      forall i | 0 <= i < |items| ensures NoLonger(Clipped(items[i]), items[i]) {
        ClippedIsNoLonger(items[i]);
      }
      ArrayShrinks(Clipped(v).items, items);
    case Object(fields) =>
      forall i | 0 <= i < |fields| ensures NoLonger(Clipped(fields[i].value), fields[i].value) {
        ClippedIsNoLonger(fields[i].value);
      }
      ClippedFieldsCovered(fields, |fields|);
      ObjectShrinks(Clipped(v).fields, fields);
    case _ =>
  }

  // ------------------------------------------------- stages 2 and 3: identity only

  /** The fields of a record that have one of these keys, in the order of the keys. */
  function Picked(fields: seq<Field>, keys: seq<seq<CodeUnit>>): seq<Field> {
    if keys == [] then []
    else
      var before, key := Picked(fields, keys[..|keys| - 1]), keys[|keys| - 1];
      if Has(fields, key) then Assign(before, key, Get(fields, key)) else before
  }

  function Identity(fields: seq<Field>): seq<Field> {
    Picked(fields, IDENTITY_KEYS)
  }

  function ShrunkRow(v: Json): Json {
    if v.Object? && Identity(v.fields) != [] then Object(Identity(v.fields)) else v
  }

  function RowCuts(v: Json, path: Path): set<Path> {
    if v.Object? && Identity(v.fields) != []
    then set f | f in v.fields && !In(f.key, Identity(v.fields)) :: ChildPath(path, f.key)
    else {}
  }

  function ShrunkRows(items: seq<Json>, k: nat): (r: seq<Json>)
    requires k <= |items|
    ensures |r| == k
  {
    if k == 0 then [] else ShrunkRows(items, k - 1) + [ShrunkRow(items[k - 1])]
  }

  function RowsCuts(items: seq<Json>, k: nat, path: Path): set<Path>
    requires k <= |items|
  {
    if k == 0 then {} else RowsCuts(items, k - 1, path) + RowCuts(items[k - 1], path)
  }

  function ShrunkArray(items: seq<Json>): Json {
    Array(ShrunkRows(items, Min(|items|, SHRINK_ARRAY_MAX)))
  }

  function ArrayCuts(items: seq<Json>, path: Path): set<Path> {
    (if |items| > SHRINK_ARRAY_MAX then {path} else {}) + RowsCuts(items, Min(|items|, SHRINK_ARRAY_MAX), path)
  }

  /** A field that the second stage keeps, and as what. */
  predicate Kept(f: Field) {
    f.key in IDENTITY_KEYS || f.value.Array? || f.value.Object? || f.value.Number? || f.value.Bool? || f.value.Null?
  }

  function KeptAs(f: Field): Json {
    if f.key in IDENTITY_KEYS then f.value
    else if f.value.Array? then ShrunkArray(f.value.items)
    else ShrunkRow(f.value)
  }

  function KeptCuts(f: Field, path: Path): set<Path> {
    var entryPath := ChildPath(path, f.key);
    if f.key in IDENTITY_KEYS then {}
    else if f.value.Array? then ArrayCuts(f.value.items, entryPath)
    else if f.value.Object? then RowCuts(f.value, entryPath)
    else if Kept(f) then {} else {entryPath}
  }

  function ShrunkFields(fields: seq<Field>, k: nat): seq<Field>
    requires k <= |fields|
  {
    if k == 0 then []
    else if Kept(fields[k - 1]) then Assign(ShrunkFields(fields, k - 1), fields[k - 1].key, KeptAs(fields[k - 1]))
    else ShrunkFields(fields, k - 1)
  }

  function ShrunkFieldsCuts(fields: seq<Field>, k: nat, path: Path): set<Path>
    requires k <= |fields|
  {
    if k == 0 then {} else ShrunkFieldsCuts(fields, k - 1, path) + KeptCuts(fields[k - 1], path)
  }

  function Shrunk(v: Json): Json {
    if v.Array? then ShrunkArray(v.items)
    else if v.Object? then Object(ShrunkFields(v.fields, |v.fields|))
    else v
  }

  function ShrinkCuts(v: Json, path: Path): set<Path> {
    if v.Array? then ArrayCuts(v.items, path)
    else if v.Object? then ShrunkFieldsCuts(v.fields, |v.fields|, path)
    else {}
  }

  predicate HasRecords(v: Json) {
    v.Array? && exists i :: 0 <= i < |v.items| && v.items[i].Object?
  }

  function Compact(v: Json): Json
    decreases v
  {
    match v
    case Array(items) => Array(CompactItems(items, Min(|items|, SHRINK_ARRAY_MAX)))
    case Object(fields) => Object(CompactFields(fields, |fields|))
    case _ => v
  }

  function CompactItems(items: seq<Json>, k: nat): (r: seq<Json>)
    requires k <= |items|
    ensures |r| == k
    decreases items, k
  {
    if k == 0 then [] else CompactItems(items, k - 1) + [Compact(items[k - 1])]
  }

  /** The identity fields, then the arrays of records among the first `k` fields. */
  function CompactFields(fields: seq<Field>, k: nat): seq<Field>
    requires k <= |fields|
    decreases fields, k
  {
    if k == 0 then Identity(fields)
    else
      var before, f := CompactFields(fields, k - 1), fields[k - 1];
      if !In(f.key, before) && HasRecords(f.value) then Assign(before, f.key, Compact(f.value)) else before
  }

  function CompactCuts(v: Json, path: Path): set<Path>
    decreases v
  {
    match v
    case Array(items) =>
      (if |items| > SHRINK_ARRAY_MAX then {path} else {}) +
      CompactItemsCuts(items, Min(|items|, SHRINK_ARRAY_MAX), path)
    case Object(fields) => CompactFieldsCuts(fields, |fields|, path)
    case _ => {}
  }

  function CompactItemsCuts(items: seq<Json>, k: nat, path: Path): set<Path>
    requires k <= |items|
    decreases items, k
  {
    if k == 0 then {} else CompactItemsCuts(items, k - 1, path) + CompactCuts(items[k - 1], path)
  }

  function CompactFieldsCuts(fields: seq<Field>, k: nat, path: Path): set<Path>
    requires k <= |fields|
    decreases fields, k
  {
    if k == 0 then {}
    else
      var before, f, entryPath := CompactFields(fields, k - 1), fields[k - 1], ChildPath(path, fields[k - 1].key);
      CompactFieldsCuts(fields, k - 1, path) +
      if In(f.key, before) then {} else if HasRecords(f.value) then CompactCuts(f.value, entryPath) else {entryPath}
  }

  // ----------------------------------------------------- what the stages preserve

  /** What is picked: exactly the fields of the record with these keys, with their values. */
  lemma {:induction false} PickedHas(fields: seq<Field>, keys: seq<seq<CodeUnit>>, key: seq<CodeUnit>)
    ensures Distinct(Picked(fields, keys))
    ensures Has(Picked(fields, keys), key) <==> key in keys && Has(fields, key)
    ensures Has(Picked(fields, keys), key) ==> Get(Picked(fields, keys), key) == Get(fields, key)
    decreases |keys|
  {
    if keys != [] {
      var most, last := keys[..|keys| - 1], keys[|keys| - 1];
      PickedHas(fields, most, key);
      assert key in keys <==> key in most || key == last;
      if Has(fields, last) {
        AssignKeeps(Picked(fields, most), last, Get(fields, last), key);
      }
    }
  }

  lemma {:induction false} PickedCovered(fields: seq<Field>, keys: seq<seq<CodeUnit>>)
    ensures Covered(Picked(fields, keys), fields)
    ensures AllSerializable(fields) ==> AllSerializable(Picked(fields, keys))
    decreases |keys|
  {
    if keys != [] {
      var most, last := keys[..|keys| - 1], keys[|keys| - 1];
      PickedCovered(fields, most);
      if Has(fields, last) {
        var at := IndexOf(fields, last);
        FieldShrinks(fields, at, fields[at].value);
        AssignCovered(Picked(fields, most), fields, last, Get(fields, last));
      }
    }
  }

  lemma IdentityHas(fields: seq<Field>, key: seq<CodeUnit>)
    ensures Distinct(Identity(fields))
    ensures Has(Identity(fields), key) <==> key in IDENTITY_KEYS && Has(fields, key)
    ensures Has(Identity(fields), key) ==> Get(Identity(fields), key) == Get(fields, key)
  {
    PickedHas(fields, IDENTITY_KEYS, key);
  }

  lemma RowIsNoLonger(v: Json)
    ensures NoLonger(ShrunkRow(v), v)
  {
    if v.Object? {
      PickedCovered(v.fields, IDENTITY_KEYS);
      ObjectShrinks(Identity(v.fields), v.fields);
    }
  }

  lemma {:induction false} ShrunkRowAt(items: seq<Json>, k: nat, i: nat)
    requires i < k <= |items|
    ensures ShrunkRows(items, k)[i] == ShrunkRow(items[i])
    decreases k
  {
    if i < k - 1 {
      ShrunkRowAt(items, k - 1, i);
    }
  }

  /** The second stage keeps the first three rows of an array. */
  lemma ShrunkKeepsThreeRows(items: seq<Json>)
    ensures var rows := ShrunkArray(items).items;
            |rows| == Min(|items|, SHRINK_ARRAY_MAX) && forall i :: 0 <= i < |rows| ==> rows[i] == ShrunkRow(items[i])
  {
    forall i | 0 <= i < Min(|items|, SHRINK_ARRAY_MAX) ensures ShrunkArray(items).items[i] == ShrunkRow(items[i]) {
      ShrunkRowAt(items, Min(|items|, SHRINK_ARRAY_MAX), i);
    }
  }

  lemma ShrunkArrayIsNoLonger(items: seq<Json>)
    ensures NoLonger(ShrunkArray(items), Array(items))
  {
    ShrunkKeepsThreeRows(items);
    forall i | 0 <= i < |items| ensures NoLonger(ShrunkRow(items[i]), items[i]) {
      RowIsNoLonger(items[i]);
    }
    ArrayShrinks(ShrunkArray(items).items, items);
  }

  lemma KeptIsNoLonger(f: Field)
    requires Kept(f)
    ensures NoLonger(KeptAs(f), f.value)
  {
    if f.value.Array? {
      ShrunkArrayIsNoLonger(f.value.items);
    }
    RowIsNoLonger(f.value);
  }

  lemma {:induction false} ShrunkFieldsCovered(fields: seq<Field>, k: nat)
    requires k <= |fields|
    ensures Covered(ShrunkFields(fields, k), fields)
    ensures AllSerializable(fields) ==> AllSerializable(ShrunkFields(fields, k))
    decreases k
  {
    if k > 0 {
      ShrunkFieldsCovered(fields, k - 1);
      var f := fields[k - 1];
      if Kept(f) {
        KeptIsNoLonger(f);
        FieldShrinks(fields, k - 1, KeptAs(f));
        AssignCovered(ShrunkFields(fields, k - 1), fields, f.key, KeptAs(f));
        if AllSerializable(fields) {
          AssignSerializable(ShrunkFields(fields, k - 1), f.key, KeptAs(f));
        }
      }
    }
  }

  lemma ShrunkIsNoLonger(v: Json)
    ensures NoLonger(Shrunk(v), v)
  {
    if v.Array? {
      ShrunkArrayIsNoLonger(v.items);
    } else if v.Object? {
      ShrunkFieldsCovered(v.fields, |v.fields|);
      ObjectShrinks(ShrunkFields(v.fields, |v.fields|), v.fields);
    }
  }

  lemma {:induction false} CompactItemAt(items: seq<Json>, k: nat, i: nat)
    requires i < k <= |items|
    ensures CompactItems(items, k)[i] == Compact(items[i])
    decreases k
  {
    if i < k - 1 {
      CompactItemAt(items, k - 1, i);
    }
  }

  lemma {:induction false} CompactFieldsCovered(fields: seq<Field>, k: nat)
    requires k <= |fields|
    requires forall i :: 0 <= i < k ==> NoLonger(Compact(fields[i].value), fields[i].value)
    ensures Covered(CompactFields(fields, k), fields)
    ensures AllSerializable(fields) ==> AllSerializable(CompactFields(fields, k))
    decreases k
  {
    hide Covered, Covers, Assign, Has, In;
    if k == 0 {
      PickedCovered(fields, IDENTITY_KEYS);
    } else {
      CompactFieldsCovered(fields, k - 1);
      var before, f := CompactFields(fields, k - 1), fields[k - 1];
      if !In(f.key, before) && HasRecords(f.value) {
        FieldShrinks(fields, k - 1, Compact(f.value));
        AssignCovered(before, fields, f.key, Compact(f.value));
        if AllSerializable(fields) {
          AssignSerializable(before, f.key, Compact(f.value));
        }
      }
    }
  }

  lemma {:induction false} CompactIsNoLonger(v: Json)
    ensures NoLonger(Compact(v), v)
    decreases v
  {
    match v
    case Array(items) =>
      var k := Min(|items|, SHRINK_ARRAY_MAX);
      forall i | 0 <= i < k
        ensures CompactItems(items, k)[i] == Compact(items[i]) && NoLonger(Compact(items[i]), items[i])
      {
        CompactItemAt(items, k, i);
        CompactIsNoLonger(items[i]);
      }
      ArrayShrinks(Compact(v).items, items);
    case Object(fields) =>
      forall i | 0 <= i < |fields| ensures NoLonger(Compact(fields[i].value), fields[i].value) {
        CompactIsNoLonger(fields[i].value);
      }
      CompactFieldsCovered(fields, |fields|);
      ObjectShrinks(Compact(v).fields, fields);
    case _ =>
  }

  /** No stage lengthens the text, whatever the value. */
  lemma StagesNeverLengthen(v: Json)
    ensures NoLonger(Clipped(v), v) && NoLonger(Shrunk(v), v) && NoLonger(Compact(v), v)
  {
    ClippedIsNoLonger(v);
    ShrunkIsNoLonger(v);
    CompactIsNoLonger(v);
  }

  // ------------------------------------------------------------ identity survives

  /** The record holds the identity field with the value it had. */
  ghost predicate Survives(key: seq<CodeUnit>, fields: seq<Field>, v: Json) {
    v.Object? && Has(v.fields, key) && Has(fields, key) && Get(v.fields, key) == Get(fields, key)
  }

  /** A property set to this value. */
  ghost predicate Holds(fields: seq<Field>, key: seq<CodeUnit>, value: Json) {
    Has(fields, key) && Get(fields, key) == value
  }

  lemma AssignHolds(fields: seq<Field>, key: seq<CodeUnit>, value: Json, other: seq<CodeUnit>, held: Json)
    requires Distinct(fields)
    requires if other == key then held == value else Holds(fields, other, held)
    ensures Holds(Assign(fields, key, value), other, held)
  {
    AssignKeeps(fields, key, value, other);
  }

  lemma {:induction false} ShrunkFieldsKeep(fields: seq<Field>, k: nat, i: nat)
    requires Distinct(fields) && i < k <= |fields| && Kept(fields[i])
    ensures Holds(ShrunkFields(fields, k), fields[i].key, KeptAs(fields[i]))
    decreases k
  {
    hide Kept, KeptAs, Holds;
    var before, f := ShrunkFields(fields, k - 1), fields[k - 1];
    var held := KeptAs(fields[i]);
    if i < k - 1 {
      ShrunkFieldsKeep(fields, k - 1, i);
      assert f.key != fields[i].key;
    }
    if Kept(f) {
      ShrunkFieldsCovered(fields, k - 1);
      AssignHolds(before, f.key, KeptAs(f), fields[i].key, held);
    }
  }

  lemma {:induction false} CompactFieldsKeep(fields: seq<Field>, k: nat, key: seq<CodeUnit>)
    requires k <= |fields| && key in IDENTITY_KEYS && Has(fields, key)
    ensures Distinct(CompactFields(fields, k))
    ensures Has(CompactFields(fields, k), key) && Get(CompactFields(fields, k), key) == Get(fields, key)
    decreases k
  {
    if k == 0 {
      IdentityHas(fields, key);
    } else {
      CompactFieldsKeep(fields, k - 1, key);
      var before, f := CompactFields(fields, k - 1), fields[k - 1];
      if !In(f.key, before) && HasRecords(f.value) {
        AssignKeeps(before, f.key, Compact(f.value), key);
      }
    }
  }

  /** The identity fields of a record that is kept survive unchanged, in a row and at the top, in both last stages. */
  lemma IdentitySurvives(fields: seq<Field>, key: seq<CodeUnit>)
    requires Distinct(fields) && Has(fields, key) && key in IDENTITY_KEYS
    ensures Survives(key, fields, ShrunkRow(Object(fields)))
    ensures Survives(key, fields, Shrunk(Object(fields)))
    ensures Survives(key, fields, Compact(Object(fields)))
  {
    IdentityHas(fields, key);
    ShrunkFieldsKeep(fields, |fields|, IndexOf(fields, key));
    CompactFieldsKeep(fields, |fields|, key);
  }
}

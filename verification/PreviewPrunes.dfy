/**
 * What the preview of a clipped result is, whatever the stage it stopped at
 * (packages/ai/src/clip-tool-result.ts): the output with parts left out, and no
 * record in it without its identity.
 */
module PreviewPrunes {
  import opened Wrappers
  import opened JsonChars
  import opened JsonSize
  import opened ClipToolResult
  import opened ToolResultClipper

  /** The fewest entries an array that is kept is left with. */
  function Least(n: nat): nat {
    Min(n, SHRINK_ARRAY_MAX)
  }

  /**
   * A value with parts left out: an array is a prefix of the one it was, with at
   * least its first three entries; a record has only fields it had and every
   * identity field it had, wherever it is nested; anything else is as it was.
   */
  ghost predicate Prunes(a: Json, v: Json)
    decreases v
  {
    match v
    case Array(items) =>
      && a.Array? && Least(|items|) <= |a.items| <= |items|
      && forall i :: 0 <= i < |a.items| ==> Prunes(a.items[i], items[i])
    case Object(fields) =>
      && a.Object? && Distinct(a.fields)
      && (forall key :: key in IDENTITY_KEYS && Has(fields, key) ==> Has(a.fields, key))
      && forall i :: 0 <= i < |a.fields| ==>
           Has(fields, a.fields[i].key) && Prunes(a.fields[i].value, Get(fields, a.fields[i].key))
    case _ => a == v
  }

  lemma {:induction false} PrunesItself(v: Json)
    requires OwnKeys(v)
    ensures Prunes(v, v)
    decreases v
  {
    match v
    case Array(items) =>
      forall i | 0 <= i < |items| ensures Prunes(items[i], items[i]) {
        PrunesItself(items[i]);
      }
    case Object(fields) =>
      forall i | 0 <= i < |fields|
        ensures Has(fields, fields[i].key) && Prunes(fields[i].value, Get(fields, fields[i].key))
      {
        GetIs(fields, i);
        PrunesItself(fields[i].value);
      }
    case _ =>
  }

  /** Stages compose. */
  lemma {:induction false} PrunesOfPruned(a: Json, b: Json, v: Json)
    requires Prunes(a, b) && Prunes(b, v)
    ensures Prunes(a, v)
    decreases v
  {
    match v
    case Array(items) =>
      forall i | 0 <= i < |a.items| ensures Prunes(a.items[i], items[i]) {
        PrunesOfPruned(a.items[i], b.items[i], items[i]);
      }
    case Object(fields) =>
      forall i | 0 <= i < |a.fields|
        ensures Has(fields, a.fields[i].key) && Prunes(a.fields[i].value, Get(fields, a.fields[i].key))
      {
        var j := IndexOf(b.fields, a.fields[i].key);
        assert Prunes(b.fields[j].value, Get(fields, b.fields[j].key));
        PrunesOfPruned(a.fields[i].value, b.fields[j].value, Get(fields, a.fields[i].key));
      }
    case _ =>
  }

  lemma {:induction false} PrunedHasOwnKeys(a: Json, v: Json)
    requires Prunes(a, v) && OwnKeys(v)
    ensures OwnKeys(a)
    decreases v
  {
    match v
    case Array(items) =>
      forall i | 0 <= i < |a.items| ensures OwnKeys(a.items[i]) {
        PrunedHasOwnKeys(a.items[i], items[i]);
      }
    case Object(fields) =>
      forall i | 0 <= i < |a.fields| ensures OwnKeys(a.fields[i].value) {
        PrunedHasOwnKeys(a.fields[i].value, Get(fields, a.fields[i].key));
      }
    case _ =>
  }

  // ------------------------------------------------------------ records built up

  /** Every field picked is one the record has, with parts left out. */
  ghost predicate PrunesFields(picked: seq<Field>, fields: seq<Field>) {
    && Distinct(picked)
    && forall i :: 0 <= i < |picked| ==>
         Has(fields, picked[i].key) && Prunes(picked[i].value, Get(fields, picked[i].key))
  }

  lemma AssignPrunes(picked: seq<Field>, fields: seq<Field>, key: seq<CodeUnit>, value: Json)
    requires PrunesFields(picked, fields) && Has(fields, key) && Prunes(value, Get(fields, key))
    ensures PrunesFields(Assign(picked, key, value), fields)
  {
    hide Prunes;
    AssignKeeps(picked, key, value, key);
  }

  lemma GetHasOwnKeys(fields: seq<Field>, key: seq<CodeUnit>)
    requires OwnKeys(Object(fields)) && Has(fields, key)
    ensures OwnKeys(Get(fields, key))
  {
  }

  lemma {:induction false} PickedPrunes(fields: seq<Field>, keys: seq<seq<CodeUnit>>)
    requires OwnKeys(Object(fields))
    ensures PrunesFields(Picked(fields, keys), fields)
    decreases |keys|
  {
    if keys != [] {
      var most, last := keys[..|keys| - 1], keys[|keys| - 1];
      PickedPrunes(fields, most);
      if Has(fields, last) {
        GetHasOwnKeys(fields, last);
        PrunesItself(Get(fields, last));
        AssignPrunes(Picked(fields, most), fields, last, Get(fields, last));
      }
    }
  }

  // -------------------------------------------------------------- the three stages

  lemma {:induction false} ClippedPrunes(v: Json)
    requires OwnKeys(v)
    ensures Prunes(Clipped(v), v)
    decreases v
  {
    match v
    case Array(items) =>
      ArrayKeepsAPrefix(items);
      forall i | 0 <= i < |Clipped(v).items| ensures Prunes(Clipped(v).items[i], items[i]) {
        ClippedPrunes(items[i]);
      }
    case Object(fields) =>
      ObjectKeepsItsFields(fields);
      var kept := Clipped(v).fields;
      forall i | 0 <= i < |kept| ensures Has(fields, kept[i].key) && Prunes(kept[i].value, Get(fields, kept[i].key)) {
        GetIs(fields, i);
        ClippedPrunes(fields[i].value);
      }
      forall key | Has(fields, key) ensures Has(kept, key) {
        assert kept[IndexOf(fields, key)].key == key;
      }
    case _ =>
  }

  lemma ShrunkRowPrunes(v: Json)
    requires OwnKeys(v)
    ensures Prunes(ShrunkRow(v), v)
  {
    if v.Object? && Identity(v.fields) != [] {
      PickedPrunes(v.fields, IDENTITY_KEYS);
      forall key | key in IDENTITY_KEYS && Has(v.fields, key) ensures Has(Identity(v.fields), key) {
        IdentityHas(v.fields, key);
      }
    } else {
      PrunesItself(v);
    }
  }

  lemma ShrunkArrayPrunes(items: seq<Json>)
    requires OwnKeys(Array(items))
    ensures Prunes(ShrunkArray(items), Array(items))
  {
    ShrunkKeepsThreeRows(items);
    forall i | 0 <= i < |items| ensures Prunes(ShrunkRow(items[i]), items[i]) {
      ShrunkRowPrunes(items[i]);
    }
  }

  lemma KeptPrunes(f: Field)
    requires Kept(f) && OwnKeys(f.value)
    ensures Prunes(KeptAs(f), f.value)
  {
    PrunesItself(f.value);
    ShrunkRowPrunes(f.value);
    if f.value.Array? {
      ShrunkArrayPrunes(f.value.items);
    }
  }

  lemma {:induction false} ShrunkFieldsPrune(fields: seq<Field>, k: nat)
    requires OwnKeys(Object(fields)) && k <= |fields|
    ensures PrunesFields(ShrunkFields(fields, k), fields)
    decreases k
  {
    hide PrunesFields, Prunes, Kept, KeptAs, Assign;
    if k == 0 {
      NothingPrunes(fields);
    } else {
      ShrunkFieldsPrune(fields, k - 1);
      var f := fields[k - 1];
      if Kept(f) {
        KeptPrunes(f);
        GetIs(fields, k - 1);
        AssignPrunes(ShrunkFields(fields, k - 1), fields, f.key, KeptAs(f));
      }
    }
  }

  lemma NothingPrunes(fields: seq<Field>)
    ensures PrunesFields([], fields)
  {
  }

  lemma ShrunkPrunes(v: Json)
    requires OwnKeys(v)
    ensures Prunes(Shrunk(v), v)
  {
    if v.Array? {
      ShrunkArrayPrunes(v.items);
    } else if v.Object? {
      ShrunkFieldsPrune(v.fields, |v.fields|);
      forall key | key in IDENTITY_KEYS && Has(v.fields, key) ensures Has(Shrunk(v).fields, key) {
        IdentitySurvives(v.fields, key);
      }
    }
  }

  lemma {:induction false} CompactFieldsPrune(fields: seq<Field>, k: nat)
    requires OwnKeys(Object(fields)) && k <= |fields|
    requires forall i :: 0 <= i < |fields| ==> Prunes(Compact(fields[i].value), fields[i].value)
    ensures PrunesFields(CompactFields(fields, k), fields)
    decreases k
  {
    hide PrunesFields, Prunes, Assign, In, HasRecords, Compact;
    if k == 0 {
      PickedPrunes(fields, IDENTITY_KEYS);
    } else {
      CompactFieldsPrune(fields, k - 1);
      var before, f := CompactFields(fields, k - 1), fields[k - 1];
      if !In(f.key, before) && HasRecords(f.value) {
        GetIs(fields, k - 1);
        AssignPrunes(before, fields, f.key, Compact(f.value));
      }
    }
  }

  lemma {:induction false} CompactPrunes(v: Json)
    requires OwnKeys(v)
    ensures Prunes(Compact(v), v)
    decreases v
  {
    match v
    case Array(items) =>
      var k := Least(|items|);
      forall i | 0 <= i < k ensures Compact(v).items[i] == Compact(items[i]) && Prunes(Compact(items[i]), items[i]) {
        CompactItemAt(items, k, i);
        CompactPrunes(items[i]);
      }
    case Object(fields) =>
      forall i | 0 <= i < |fields| ensures Prunes(Compact(fields[i].value), fields[i].value) {
        CompactPrunes(fields[i].value);
      }
      CompactFieldsPrune(fields, |fields|);
      forall key | key in IDENTITY_KEYS && Has(fields, key) ensures Has(Compact(v).fields, key) {
        IdentitySurvives(fields, key);
      }
    case _ =>
  }

  lemma StagesPrune(v: Json)
    requires OwnKeys(v)
    ensures Prunes(SecondStage(v), v) && Prunes(ThirdStage(v), v)
  {
    PrunesItself(v);
    ShrunkPrunes(v);
    CompactPrunes(v);
  }

  /** Whatever comes back is the output with parts left out, each record in it with its identity. */
  lemma PreviewPrunesTheOutput(output: Json)
    requires OwnKeys(output)
    ensures Prunes(Preview(output), output) && OwnKeys(Preview(output))
  {
    hide Clipped, Shrunk, Compact, Fits, Prunes, OwnKeys;
    var first := Clipped(output);
    ClippedPrunes(output);
    PrunedHasOwnKeys(first, output);
    StagesPrune(first);
    var second := SecondStage(first);
    PrunesOfPruned(second, first, output);
    PrunedHasOwnKeys(second, output);
    StagesPrune(second);
    PrunesOfPruned(ThirdStage(second), second, output);
    PrunedHasOwnKeys(Preview(output), output);
  }

  /** A way down from a value: the entry of an array, or the field of a record. */
  datatype Turn = Entry(at: nat) | Under(key: seq<CodeUnit>)

  predicate Leads(v: Json, turn: Turn) {
    match turn
    case Entry(at) => v.Array? && at < |v.items|
    case Under(key) => v.Object? && Has(v.fields, key)
  }

  function Reached(v: Json, turn: Turn): Json
    requires Leads(v, turn)
  {
    match turn
    case Entry(at) => v.items[at]
    case Under(key) => Get(v.fields, key)
  }

  /** What is at the end of the way, or none when the way ends early. */
  function At(v: Json, turns: seq<Turn>): Option<Json> {
    if turns == [] then Some(v)
    else if Leads(v, turns[0]) then At(Reached(v, turns[0]), turns[1..]) else None
  }

  lemma PrunesLeads(a: Json, v: Json, turn: Turn)
    requires Prunes(a, v) && Leads(a, turn)
    ensures Leads(v, turn) && Prunes(Reached(a, turn), Reached(v, turn))
  {
    if turn.Under? {
      var i := IndexOf(a.fields, turn.key);
      assert Has(v.fields, a.fields[i].key) && Prunes(a.fields[i].value, Get(v.fields, a.fields[i].key));
    }
  }

  lemma {:induction false} PrunesWay(a: Json, v: Json, turns: seq<Turn>)
    requires Prunes(a, v) && At(a, turns).Some?
    ensures At(v, turns).Some? && Prunes(At(a, turns).value, At(v, turns).value)
    decreases |turns|
  {
    if turns != [] {
      PrunesLeads(a, v, turns[0]);
      PrunesWay(Reached(a, turns[0]), Reached(v, turns[0]), turns[1..]);
    }
  }

  /**
   * A record left in the preview, however deep, stands where a record of the
   * output stood and has each of that record's identity fields; one that is not
   * itself a list or a record has the value it had.
   */
  lemma IdentitySurvivesAnywhere(output: Json, turns: seq<Turn>, key: seq<CodeUnit>)
    requires OwnKeys(output) && key in IDENTITY_KEYS
    requires var left := At(Preview(output), turns); left.Some? && left.value.Object?
    ensures var left, was := At(Preview(output), turns), At(output, turns);
            && was.Some? && was.value.Object?
            && (Has(was.value.fields, key) <==> Has(left.value.fields, key))
            && (Has(was.value.fields, key) ==>
                  var before, after := Get(was.value.fields, key), Get(left.value.fields, key);
                  Prunes(after, before) && (!before.Array? && !before.Object? ==> after == before))
  {
    hide Preview;
    PreviewPrunesTheOutput(output);
    PrunesWay(Preview(output), output, turns);
    var left, was := At(Preview(output), turns).value, At(output, turns).value;
    assert was.Object?;
    if Has(left.fields, key) {
      PrunesLeads(left, was, Under(key));
    }
  }
}

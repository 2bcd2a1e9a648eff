/**
 * The length of `jsonb` text as a sum over the tree, and the JSON object
 * operations that clipping is made of.
 */
module JsonSize {
  import opened JsonChars

  function TextLength(v: Json): nat {
    |Print(v, true)|
  }

  // ------------------------------------------------------------------- lengths

  /** What an item adds: itself and a separator. */
  function ItemsCost(items: seq<Json>): nat {
    if items == [] then 0 else ItemsCost(items[..|items| - 1]) + TextLength(items[|items| - 1]) + 2
  }

  function FieldCost(f: Field): nat {
    if f.value.Unset? then 0 else |Quoted(f.key)| + TextLength(f.value) + 4
  }

  function Cost(fields: seq<Field>): nat {
    if fields == [] then 0 else Cost(fields[..|fields| - 1]) + FieldCost(fields[|fields| - 1])
  }

  lemma {:induction false} ItemsLength(items: seq<Json>)
    requires items != []
    ensures |PrintItems(items, true)| + 2 == ItemsCost(items)
  {
    if |items| == 1 {
      assert items[..0] == [];
    } else {
      ItemsLength(items[..|items| - 1]);
    }
  }

  /** An array is as long as its items with two units each, the brackets taking the last separator's place. */
  lemma ArrayLength(items: seq<Json>)
    ensures TextLength(Array(items)) == if items == [] then 2 else ItemsCost(items)
  {
    assert Print(Array(items), true) == [0x5B] + PrintItems(items, true) + [0x5D];
    if items != [] {
      ItemsLength(items);
    }
  }

  lemma {:induction false} FieldsLength(fields: seq<Field>)
    ensures Shown(fields) ==> |PrintFields(fields, true)| + 2 == Cost(fields)
    ensures !Shown(fields) ==> PrintFields(fields, true) == [] && Cost(fields) == 0
  {
    if fields != [] {
      var before, f := fields[..|fields| - 1], fields[|fields| - 1];
      FieldsLength(before);
      assert Shown(before) ==> Shown(fields);
      assert Shown(fields) && !Shown(before) ==> !f.value.Unset?;
    }
  }

  lemma ObjectLength(fields: seq<Field>)
    ensures TextLength(Object(fields)) == if Cost(fields) == 0 then 2 else Cost(fields)
  {
    FieldsLength(fields);
  }

  lemma {:induction false} ItemsShrink(a: seq<Json>, b: seq<Json>)
    requires |a| <= |b|
    requires forall i :: 0 <= i < |a| ==> TextLength(a[i]) <= TextLength(b[i])
    ensures ItemsCost(a) <= ItemsCost(b)
    decreases |b|
  {
    if b != [] {
      var n := |b| - 1;
      if |a| == |b| {
        ItemsShrink(a[..n], b[..n]);
      } else {
        ItemsShrink(a, b[..n]);
      }
    }
  }

  /** Fewer items, none of them longer, print no longer. */
  lemma ArrayShrinks(a: seq<Json>, b: seq<Json>)
    requires |a| <= |b|
    requires forall i :: 0 <= i < |a| ==> TextLength(a[i]) <= TextLength(b[i])
    ensures TextLength(Array(a)) <= TextLength(Array(b))
  {
    ItemsShrink(a, b);
    ArrayLength(a);
    ArrayLength(b);
    if b != [] {
      assert ItemsCost(b) >= 2;
    }
  }

  // ------------------------------------------------------------------- objects

  predicate Has(fields: seq<Field>, key: seq<CodeUnit>) {
    exists i :: 0 <= i < |fields| && fields[i].key == key
  }

  predicate Distinct(fields: seq<Field>) {
    forall i, j :: 0 <= i < j < |fields| ==> fields[i].key != fields[j].key
  }

  function IndexOf(fields: seq<Field>, key: seq<CodeUnit>): (at: nat)
    requires Has(fields, key)
    ensures at < |fields| && fields[at].key == key
  {
    if fields[|fields| - 1].key == key then |fields| - 1 else IndexOf(fields[..|fields| - 1], key)
  }

  function Get(fields: seq<Field>, key: seq<CodeUnit>): Json
    requires Has(fields, key)
  {
    fields[IndexOf(fields, key)].value
  }

  /** Setting a property: in place when the key is there, at the end when it is not. */
  function Assign(fields: seq<Field>, key: seq<CodeUnit>, value: Json): seq<Field> {
    if Has(fields, key) then fields[IndexOf(fields, key) := Field(key, value)] else fields + [Field(key, value)]
  }

  lemma GetIs(fields: seq<Field>, i: nat)
    requires Distinct(fields) && i < |fields|
    ensures Has(fields, fields[i].key) && Get(fields, fields[i].key) == fields[i].value
  {
  }

  lemma AssignKeeps(fields: seq<Field>, key: seq<CodeUnit>, value: Json, other: seq<CodeUnit>)
    requires Distinct(fields)
    ensures Distinct(Assign(fields, key, value))
    ensures Has(Assign(fields, key, value), other) <==> Has(fields, other) || other == key
    ensures Has(Assign(fields, key, value), other) ==>
              Get(Assign(fields, key, value), other) == if other == key then value else Get(fields, other)
  {
    var a := Assign(fields, key, value);
    assert forall i :: 0 <= i < |fields| ==> a[i].key == fields[i].key;
    if Has(fields, other) {
      assert a[IndexOf(fields, other)].key == other;
    }
    if other == key {
      assert a[if Has(fields, key) then IndexOf(fields, key) else |fields|].key == key;
    }
  }

  // ------------------------------------------------------------------ covering

  /** The record has the field with at least as long a value. */
  predicate Covers(record: seq<Field>, f: Field) {
    exists j :: 0 <= j < |record| && record[j].key == f.key && FieldCost(f) <= FieldCost(record[j])
  }

  ghost predicate Covered(picked: seq<Field>, record: seq<Field>) {
    Distinct(picked) && forall i :: 0 <= i < |picked| ==> Covers(record, picked[i])
  }

  lemma AssignCovered(picked: seq<Field>, record: seq<Field>, key: seq<CodeUnit>, value: Json)
    requires Covered(picked, record) && Covers(record, Field(key, value))
    ensures Covered(Assign(picked, key, value), record)
  {
    AssignKeeps(picked, key, value, key);
  }

  lemma {:induction false} CostWithout(fields: seq<Field>, j: nat)
    requires j < |fields|
    ensures Cost(fields) == Cost(fields[..j] + fields[j + 1..]) + FieldCost(fields[j])
    decreases |fields|
  {
    var n := |fields| - 1;
    if j == n {
      assert fields[..j] + fields[j + 1..] == fields[..n];
    } else {
      CostWithout(fields[..n], j);
      var rest := fields[..j] + fields[j + 1..];
      assert rest[..n - 1] == fields[..n][..j] + fields[..n][j + 1..];
      assert rest[n - 1] == fields[n];
    }
  }

  /** Fields taken out of a record, none with a longer value, cost no more than the record. */
  lemma {:induction false} CoveredCosts(picked: seq<Field>, record: seq<Field>)
    requires Covered(picked, record)
    ensures Cost(picked) <= Cost(record)
    decreases |picked|
  {
    if picked != [] {
      var n := |picked| - 1;
      var j :| 0 <= j < |record| && record[j].key == picked[n].key && FieldCost(picked[n]) <= FieldCost(record[j]);
      var rest := record[..j] + record[j + 1..];
      forall i | 0 <= i < n ensures Covers(rest, picked[..n][i]) {
        var k :| 0 <= k < |record| && record[k].key == picked[i].key && FieldCost(picked[i]) <= FieldCost(record[k]);
        assert k != j;
        assert rest[if k < j then k else k - 1] == record[k];
      }
      CoveredCosts(picked[..n], rest);
      CostWithout(record, j);
    }
  }

  lemma ObjectShrinks(picked: seq<Field>, record: seq<Field>)
    requires Covered(picked, record)
    ensures TextLength(Object(picked)) <= TextLength(Object(record))
  {
    CoveredCosts(picked, record);
    ObjectLength(picked);
    ObjectLength(record);
    CostIsZeroOrMore(picked);
  }

  lemma {:induction false} CostIsZeroOrMore(fields: seq<Field>)
    ensures Cost(fields) == 0 || Cost(fields) >= 2
  {
    if fields != [] {
      CostIsZeroOrMore(fields[..|fields| - 1]);
    }
  }
}
